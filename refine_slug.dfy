/** `RefineSlug`: the catch-all route's path segments become the content slug. */
module RefineSlug {
  import opened Wrappers
  import opened JsStrings

  /**
   * An absent or empty segment list has no slug; otherwise the segments are
   * joined with "/" in order, with no further normalisation.
   */
  function RefineSlug(slug: Option<seq<string>>): (r: Option<string>)
    ensures r.Some? <==> slug.Some? && |slug.value| > 0
    ensures r.Some? ==> r.value == Join(slug.value, '/')
  {
    if slug.None? || |slug.value| == 0 then None else Some(Join(slug.value, '/'))
  }

  /** A single segment is the slug itself. */
  lemma SingleSegment(s: string)
    ensures RefineSlug(Some([s])) == Some(s)
  {
  }

  /** Segments free of "/" can be recovered from the slug by splitting it. */
  lemma RefineSlugRoundTrip(segments: seq<string>)
    requires |segments| > 0
    requires forall i :: 0 <= i < |segments| ==> '/' !in segments[i]
    ensures RefineSlug(Some(segments)).Some?
    ensures Split(RefineSlug(Some(segments)).value, '/') == segments
  {
    SplitJoin(segments, '/');
  }

  /** The slug's length is the segments' total length plus one separator between each pair. */
  lemma RefineSlugLength(segments: seq<string>)
    requires |segments| > 0
    ensures RefineSlug(Some(segments)).Some?
    ensures |RefineSlug(Some(segments)).value| == SumLengths(segments) + |segments| - 1
  {
    JoinLength(segments, '/');
  }

  /** Nothing is normalised: an empty segment leaves a trailing "/", and a nested route is kept whole. */
  lemma NoNormalisation()
    ensures RefineSlug(Some(["a", ""])) == Some("a/")
    ensures RefineSlug(Some(["works", "case-1"])) == Some("works/case-1")
    ensures RefineSlug(Some(["about"])) == Some("about")
    ensures RefineSlug(Some([])) == None && RefineSlug(None) == None
  {
    assert ["a", ""][1..] == [""];
    assert Join(["a", ""], '/') == "a" + ['/'] + Join([""], '/');
    assert "a" + ['/'] + "" == "a/";
    assert ["works", "case-1"][1..] == ["case-1"];
    assert Join(["works", "case-1"], '/') == "works" + ['/'] + "case-1";
    assert "works" + ['/'] + "case-1" == "works/case-1";
  }
}
