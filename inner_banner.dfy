/**
 * `InnerBanner`: the banner of inner pages, with its title and a breadcrumb
 * trail built from the current path. The trail is "Home" followed by one
 * crumb per non-empty path segment, each linking to the path up to that
 * segment; the last crumb is shown as the current page rather than a link.
 */
module InnerBanner {
  import opened Wrappers
  import opened JsStrings

  const TitleFallback: string := "Page Title"
  const HomeLabel: string := "Home"

  /** `data?.title || "Page Title"`. */
  function Title(title: Option<string>): (r: string)
    ensures r != []
    ensures Truthy(title) ==> r == title.value
    ensures !Truthy(title) ==> r == TitleFallback
  {
    Or(title, TitleFallback)
  }

  /** The background style is set exactly when a background image is given. */
  function BackgroundStyle(backgroundImage: Option<string>): (r: Option<string>)
    ensures r.Some? <==> Truthy(backgroundImage)
    ensures r.Some? ==> r.value == "url(" + backgroundImage.value + ")"
  {
    if Truthy(backgroundImage) then Some("url(" + backgroundImage.value + ")") else None
  }

  /** `filter(segment => segment !== '')`. */
  function NonEmpty(pieces: seq<string>): (r: seq<string>)
    ensures |r| <= |pieces|
    ensures forall i :: 0 <= i < |r| ==> r[i] != [] && r[i] in pieces
  {
    if pieces == [] then []
    else if pieces[0] == [] then NonEmpty(pieces[1..])
    else [pieces[0]] + NonEmpty(pieces[1..])
  }

  lemma {:induction false} NonEmptyConcat(a: seq<string>, b: seq<string>)
    ensures NonEmpty(a + b) == NonEmpty(a) + NonEmpty(b)
  {
    if a != [] {
      assert (a + b)[1..] == a[1..] + b;
      NonEmptyConcat(a[1..], b);
    } else {
      assert a + b == b;
    }
  }

  lemma {:induction false} NonEmptyKeepsNonEmpty(pieces: seq<string>)
    requires forall i :: 0 <= i < |pieces| ==> pieces[i] != []
    ensures NonEmpty(pieces) == pieces
  {
    if pieces != [] {
      NonEmptyKeepsNonEmpty(pieces[1..]);
    }
  }

  /** The non-empty segments of a path. */
  function Segments(path: string): (segs: seq<string>)
    ensures forall i :: 0 <= i < |segs| ==> segs[i] != [] && '/' !in segs[i]
  {
    NonEmpty(Split(path, '/'))
  }

  /** Repeated slashes never create empty segments. */
  lemma RepeatedSlashIgnored(a: string, b: string)
    ensures Segments(a + "//" + b) == Segments(a + "/" + b)
  {
    assert a + "//" + b == a + ['/'] + ([] + ['/'] + b);
    assert a + "/" + b == a + ['/'] + b;
    SplitConcat(a, [] + ['/'] + b, '/');
    SplitConcat([], b, '/');
    SplitConcat(a, b, '/');
    NonEmptyConcat(Split(a, '/'), Split([], '/') + Split(b, '/'));
    NonEmptyConcat(Split([], '/'), Split(b, '/'));
    NonEmptyConcat(Split(a, '/'), Split(b, '/'));
  }

  /** A trailing slash adds no segment. */
  lemma TrailingSlashIgnored(a: string)
    ensures Segments(a + "/") == Segments(a)
  {
    assert a + "/" == a + ['/'] + [];
    SplitConcat(a, [], '/');
    NonEmptyConcat(Split(a, '/'), Split([], '/'));
  }

  /** `word.charAt(0).toUpperCase() + word.slice(1)`. */
  function Capitalize(word: string): (r: string)
    ensures |r| == |word|
    ensures r != [] ==> r[0] == ToUpper(word[0]) && r[1..] == word[1..]
  {
    if word == [] then [] else [ToUpper(word[0])] + word[1..]
  }

  function CapitalizeAll(words: seq<string>): (r: seq<string>)
    ensures |r| == |words|
    ensures forall i :: 0 <= i < |r| ==> r[i] == Capitalize(words[i])
  {
    seq(|words|, i requires 0 <= i < |words| => Capitalize(words[i]))
  }

  /** A crumb's label: the segment's hyphen-separated words, each capitalised, joined with spaces. */
  function Label(segment: string): (r: string)
    ensures '-' !in segment ==> r == Capitalize(segment)
  {
    var words := CapitalizeAll(Split(segment, '-'));
    assert '-' !in segment ==> words == [Capitalize(segment)];
    Join(words, ' ')
  }

  /**
   * The label character by character: a hyphen becomes a space, a letter
   * that starts the segment or follows a hyphen is upper-cased, and every
   * other character is kept.
   */
  function LabelByChar(s: string): (r: string)
    ensures |r| == |s|
  {
    seq(|s|, k requires 0 <= k < |s| =>
      if s[k] == '-' then ' '
      else if k == 0 || s[k - 1] == '-' then ToUpper(s[k])
      else s[k])
  }

  /** The two descriptions of a label agree on every segment. */
  lemma {:induction false} LabelMatchesByChar(s: string)
    ensures Label(s) == LabelByChar(s)
    decreases |s|
  {
    if '-' !in s {
      LabelOfWord(s);
      LabelByCharNoHyphen(s);
    } else {
      SplitAtFirst(s, '-');
      var w := Split(s, '-')[0];
      var rest := s[|w| + 1..];
      assert s == w + ['-'] + rest;
      LabelMatchesByChar(rest);
      LabelAfterWord(w, rest);
      LabelByCharNoHyphen(w);
      LabelByCharAfterWord(w, rest);
    }
  }

  lemma LabelOfWord(w: string)
    requires '-' !in w
    ensures Label(w) == Capitalize(w)
  {
    assert Split(w, '-') == [w];
    assert CapitalizeAll([w]) == [Capitalize(w)];
  }

  lemma LabelAfterWord(w: string, rest: string)
    requires '-' !in w
    ensures Label(w + ['-'] + rest) == Capitalize(w) + [' '] + Label(rest)
  {
    SplitAfterWord(w, rest, '-');
    var caps := CapitalizeAll(Split(w + ['-'] + rest, '-'));
    var tail := CapitalizeAll(Split(rest, '-'));
    assert caps == [Capitalize(w)] + tail;
    assert caps[1..] == tail;
  }

  lemma LabelByCharAfterWord(w: string, rest: string)
    requires '-' !in w
    ensures LabelByChar(w + ['-'] + rest) == LabelByChar(w) + [' '] + LabelByChar(rest)
  {
    var s := w + ['-'] + rest;
    var lhs := LabelByChar(s);
    var rhs := LabelByChar(w) + [' '] + LabelByChar(rest);
    forall k | 0 <= k < |s|
      ensures lhs[k] == rhs[k]
    {
      if k > |w| {
        assert s[k] == rest[k - |w| - 1];
        assert k - 1 == |w| || s[k - 1] == rest[k - |w| - 2];
      } else if k < |w| {
        assert s[k] == w[k];
        assert k == 0 || s[k - 1] == w[k - 1];
      }
    }
  }

  lemma LabelByCharNoHyphen(w: string)
    requires '-' !in w
    ensures Capitalize(w) == LabelByChar(w)
  {
    if w != [] {
      var r := LabelByChar(w);
      forall k | 0 <= k < |w|
        ensures Capitalize(w)[k] == r[k]
      {
        assert w[k] != '-';
        if k > 0 {
          assert w[k - 1] != '-';
          assert Capitalize(w)[k] == w[1..][k - 1];
        }
      }
    }
  }

  /** A label has the segment's length and contains no hyphen. */
  lemma LabelShape(s: string)
    ensures |Label(s)| == |s|
    ensures '-' !in Label(s)
  {
    LabelMatchesByChar(s);
    var r := LabelByChar(s);
    forall k | 0 <= k < |s|
      ensures r[k] != '-'
    {
    }
  }

  /** The path the crumbs accumulate: "/" before every segment. */
  function PathOf(segs: seq<string>): string {
    if segs == [] then "" else "/" + segs[0] + PathOf(segs[1..])
  }

  lemma {:induction false} PathOfSnoc(segs: seq<string>, s: string)
    ensures PathOf(segs + [s]) == PathOf(segs) + "/" + s
  {
    if segs == [] {
      assert [] + [s] == [s];
      assert [s][1..] == [];
    } else {
      assert (segs + [s])[1..] == segs[1..] + [s];
      PathOfSnoc(segs[1..], s);
    }
  }

  /** A non-empty trail's path is "/" followed by its segments joined with "/". */
  lemma {:induction false} PathOfIsJoin(segs: seq<string>)
    requires segs != []
    ensures PathOf(segs) == "/" + Join(segs, '/')
  {
    if |segs| > 1 {
      PathOfIsJoin(segs[1..]);
    }
  }

  /** A trail's path splits at "/" into an empty piece followed by the segments. */
  lemma SplitOfPath(segs: seq<string>)
    requires segs != []
    requires forall i :: 0 <= i < |segs| ==> '/' !in segs[i]
    ensures Split(PathOf(segs), '/') == [""] + segs
  {
    var joined := Join(segs, '/');
    PathOfIsJoin(segs);
    assert PathOf(segs) == [] + ['/'] + joined;
    SplitConcat([], joined, '/');
    SplitJoin(segs, '/');
  }

  /** The hrefs re-parse: the segments of a crumb's path are the segments it was built from. */
  lemma PathOfRoundTrip(segs: seq<string>)
    requires forall i :: 0 <= i < |segs| ==> segs[i] != [] && '/' !in segs[i]
    ensures Segments(PathOf(segs)) == segs
  {
    if segs != [] {
      SplitOfPath(segs);
      NonEmptyConcat([""], segs);
      NonEmptyKeepsNonEmpty(segs);
    }
  }

  /** One breadcrumb. */
  datatype Crumb = Crumb(text: string, href: string)

  const HomeCrumb: Crumb := Crumb(HomeLabel, "/")

  /** One crumb per segment: its label (by the character-wise description), and the path up to and including it. */
  function Trail(segs: seq<string>): (r: seq<Crumb>)
    ensures |r| == |segs|
    ensures forall j :: 0 <= j < |r| ==> r[j] == Crumb(LabelByChar(segs[j]), PathOf(segs[..j + 1]))
  {
    seq(|segs|, j requires 0 <= j < |segs| => Crumb(LabelByChar(segs[j]), PathOf(segs[..j + 1])))
  }

  /** Extending the segments by one extends the trail by that segment's crumb. */
  lemma TrailSnoc(segs: seq<string>, i: nat)
    requires i < |segs|
    ensures Trail(segs[..i + 1]) == Trail(segs[..i]) + [Crumb(LabelByChar(segs[i]), PathOf(segs[..i + 1]))]
  {
    var longer, shorter := Trail(segs[..i + 1]), Trail(segs[..i]);
    forall j | 0 <= j < i
      ensures longer[j] == shorter[j]
    {
      assert segs[..i + 1][..j + 1] == segs[..j + 1] == segs[..i][..j + 1];
    }
    assert segs[..i + 1][..i + 1] == segs[..i + 1];
  }

  /** The root path has no segments. */
  lemma RootHasNoSegments()
    ensures Segments("/") == []
  {
    assert Split("/", '/') == ["", ""];
  }

  /** "Home", then one crumb per segment. */
  function Crumbs(segs: seq<string>): (r: seq<Crumb>)
    ensures |r| == |segs| + 1
    ensures r[0] == HomeCrumb
  {
    [HomeCrumb] + Trail(segs)
  }

  /** The trail the banner shows for a path. */
  function Breadcrumbs(path: string): (r: seq<Crumb>)
    ensures |r| == |Segments(path)| + 1
    ensures r[0] == HomeCrumb
  {
    Crumbs(Segments(path))
  }

  /** A crumb's label, computed as the component does: split at hyphens, capitalise, join with spaces. */
  method FormatLabel(segment: string) returns (text: string)
    ensures text == LabelByChar(segment)
  {
    text := Join(CapitalizeAll(Split(segment, '-')), ' ');
    LabelMatchesByChar(segment);
  }

  /** `generateBreadcrumbs`: the trail built segment by segment. */
  method GenerateBreadcrumbs(pathname: string) returns (crumbs: seq<Crumb>)
    ensures crumbs == Breadcrumbs(pathname)
  {
    crumbs := [HomeCrumb];
    if pathname == "/" {
      RootHasNoSegments();
      assert Trail([]) == [];
      return;
    }
    var segments := Segments(pathname);
    var currentPath := "";
    var i := 0;
    while i < |segments|
      invariant 0 <= i <= |segments|
      invariant currentPath == PathOf(segments[..i])
      invariant crumbs == [HomeCrumb] + Trail(segments[..i])
    {
      assert segments[..i + 1] == segments[..i] + [segments[i]];
      PathOfSnoc(segments[..i], segments[i]);
      TrailSnoc(segments, i);
      currentPath := currentPath + "/" + segments[i];
      var text := FormatLabel(segments[i]);
      crumbs := crumbs + [Crumb(text, currentPath)];
      i := i + 1;
    }
    assert segments[..|segments|] == segments;
    assert crumbs == Crumbs(segments);
  }

  /** The href of the crumb at `k`: "/" for "Home", else the path of the first `k` segments. */
  function HrefAt(segs: seq<string>, k: nat): string
    requires k <= |segs|
  {
    if k == 0 then "/" else PathOf(segs[..k])
  }

  lemma CrumbHref(segs: seq<string>, k: nat)
    requires k <= |segs|
    ensures Crumbs(segs)[k].href == HrefAt(segs, k)
  {
  }

  /** Each crumb's href is a proper prefix of the next one's, so the hrefs grow strictly. */
  lemma HrefsGrow(segs: seq<string>, i: nat)
    requires i + 1 <= |segs|
    requires forall j :: 0 <= j < |segs| ==> segs[j] != []
    ensures var c := Crumbs(segs);
            |c[i].href| < |c[i + 1].href| && c[i + 1].href[..|c[i].href|] == c[i].href
  {
    CrumbHref(segs, i);
    CrumbHref(segs, i + 1);
    assert segs[i] != [];
    if i == 0 {
      assert segs[..1] == [segs[0]];
      assert PathOf([segs[0]]) == "/" + segs[0] + PathOf([]);
    } else {
      assert segs[..i + 1] == segs[..i] + [segs[i]];
      PathOfSnoc(segs[..i], segs[i]);
    }
  }

  /** The hrefs, used as React keys, are pairwise distinct: later ones are strictly longer. */
  lemma {:induction false} HrefsDistinct(segs: seq<string>, i: nat, j: nat)
    requires i < j <= |segs|
    requires forall k :: 0 <= k < |segs| ==> segs[k] != []
    ensures |Crumbs(segs)[i].href| < |Crumbs(segs)[j].href|
    ensures Crumbs(segs)[i].href != Crumbs(segs)[j].href
    decreases j - i
  {
    HrefsGrow(segs, j - 1);
    if i < j - 1 {
      HrefsDistinct(segs, i, j - 1);
    }
  }

  /** The last crumb's href is the whole normalised path. */
  lemma LastHrefIsWholePath(segs: seq<string>)
    requires segs != []
    ensures Crumbs(segs)[|segs|].href == "/" + Join(segs, '/')
  {
    CrumbHref(segs, |segs|);
    assert segs[..|segs|] == segs;
    PathOfIsJoin(segs);
  }

  /** How a crumb is shown: the current page as plain text, every other crumb as a link. */
  datatype Shown = CurrentPage(text: string) | LinkTo(text: string, href: string)

  function Render(crumbs: seq<Crumb>): (r: seq<Shown>)
    ensures |r| == |crumbs|
    ensures forall i :: 0 <= i < |r| ==> r[i].text == crumbs[i].text
    ensures forall i :: 0 <= i < |r| ==> (r[i].CurrentPage? <==> i == |crumbs| - 1)
    ensures forall i :: 0 <= i < |r| && r[i].LinkTo? ==> r[i].href == crumbs[i].href
  {
    seq(|crumbs|, i requires 0 <= i < |crumbs| =>
      if i == |crumbs| - 1 then CurrentPage(crumbs[i].text) else LinkTo(crumbs[i].text, crumbs[i].href))
  }

  /** On the home page the trail is "Home" alone, shown as the current page. */
  lemma HomeShowsOnlyHome()
    ensures Render(Breadcrumbs("/")) == [CurrentPage(HomeLabel)]
  {
    RootHasNoSegments();
  }
}
