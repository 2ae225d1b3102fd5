/**
 * `ServiceList`: one block per service, alternating content and media
 * sides. A service's title is split into a highlighted first word and the
 * remaining words.
 */
module ServiceList {
  import opened Wrappers
  import opened JsStrings

  datatype Service = Service(
    title: string,
    highlightedWord: Option<string>,
    items: seq<string>,
    ctaText: Option<string>,
    ctaLink: Option<string>,
    image: Option<string>,
    video: Option<string>,
    videoType: Option<string>)

  /** `service.title.split(' ')`. */
  function TitleWords(title: string): (words: seq<string>)
    ensures |words| >= 1
  {
    Split(title, ' ')
  }

  /** `service.highlightedWord || titleWords[0]`. */
  function HighlightedWord(s: Service): (w: string)
    ensures Truthy(s.highlightedWord) ==> w == s.highlightedWord.value
    ensures !Truthy(s.highlightedWord) ==> w == TitleWords(s.title)[0] && ' ' !in w
  {
    Or(s.highlightedWord, TitleWords(s.title)[0])
  }

  /** `titleWords.slice(1).join(' ')`: the title without its first word, whatever the highlighted word is. */
  function RemainingWords(title: string): (r: string)
    ensures ' ' !in title ==> r == ""
  {
    Join(TitleWords(title)[1..], ' ')
  }

  /** The first word, a space and the remaining words give the title back; a one-word title has no remaining words. */
  lemma TitleReassembles(title: string)
    ensures ' ' in title ==> TitleWords(title)[0] + " " + RemainingWords(title) == title
    ensures ' ' !in title ==> TitleWords(title)[0] == title && RemainingWords(title) == ""
  {
    var words := TitleWords(title);
    JoinSplit(title, ' ');
    if |words| == 1 {
      assert Join(words, ' ') == words[0];
      assert ' ' !in title;
    } else {
      assert Join(words, ' ') == words[0] + [' '] + Join(words[1..], ' ');
    }
  }

  /** The remaining words are shown only when there are some. */
  function ShowsRemainingWords(title: string): (b: bool)
    ensures b ==> ' ' in title
  {
    if RemainingWords(title) != "" then
      TitleReassembles(title);
      true
    else false
  }

  /** The two halves of a service block. */
  datatype Part = Content | Media

  /** Even-numbered services put the content first, odd-numbered ones the media. */
  function Layout(index: nat): (parts: seq<Part>)
    ensures |parts| == 2 && parts[0] != parts[1]
    ensures parts[0] == Content <==> index % 2 == 0
  {
    if index % 2 == 0 then [Content, Media] else [Media, Content]
  }

  /** Neighbouring services mirror each other. */
  lemma LayoutAlternates(index: nat)
    ensures Layout(index + 1)[0] == Layout(index)[1]
    ensures Layout(index + 2) == Layout(index)
  {
  }

  /** The media half: a video if set, else an image if set, else nothing. */
  datatype MediaView = Video(src: string, mimeType: string) | Picture(src: string, alt: string) | NoMedia

  function MediaOf(s: Service): (m: MediaView)
    ensures Truthy(s.video) ==> m == Video(s.video.value, "video/" + Or(s.videoType, "mp4"))
    ensures !Truthy(s.video) && Truthy(s.image) ==> m == Picture(s.image.value, s.title)
    ensures m == NoMedia <==> !Truthy(s.video) && !Truthy(s.image)
  {
    if Truthy(s.video) then Video(s.video.value, "video/" + Or(s.videoType, "mp4"))
    else if Truthy(s.image) then Picture(s.image.value, s.title)
    else NoMedia
  }

  /** The call to action shows only with a text, and links to the given link or "#". */
  function Cta(s: Service): (c: Option<(string, string)>)
    ensures c.Some? <==> Truthy(s.ctaText)
    ensures c.Some? ==> c.value.0 == s.ctaText.value && c.value.1 == Or(s.ctaLink, "#") && c.value.1 != []
  {
    if Truthy(s.ctaText) then Some((s.ctaText.value, Or(s.ctaLink, "#"))) else None
  }

  /** One rendered service block. */
  datatype ServiceView = ServiceView(
    parts: seq<Part>,
    highlighted: string,
    remaining: Option<string>,
    items: seq<string>,
    cta: Option<(string, string)>,
    media: MediaView)

  function RenderService(s: Service, index: nat): (v: ServiceView)
    ensures v.parts == Layout(index) && v.items == s.items
    ensures v.remaining.Some? <==> RemainingWords(s.title) != ""
    ensures v.remaining.Some? ==> v.remaining.value == RemainingWords(s.title)
    ensures v.highlighted == HighlightedWord(s)
    ensures v.cta == Cta(s) && v.media == MediaOf(s)
  {
    ServiceView(
      Layout(index),
      HighlightedWord(s),
      if ShowsRemainingWords(s.title) then Some(RemainingWords(s.title)) else None,
      s.items,
      Cta(s),
      MediaOf(s))
  }

  /** Without a supplied highlighted word, the block's highlighted word, a space and its remaining words give the title back. */
  lemma RenderedTitleReassembles(s: Service, index: nat)
    requires !Truthy(s.highlightedWord)
    ensures RenderService(s, index).remaining.Some? ==>
      RenderService(s, index).highlighted + " " + RenderService(s, index).remaining.value == s.title
    ensures ' ' !in s.title ==> RenderService(s, index).highlighted == s.title && RenderService(s, index).remaining.None?
  {
    TitleReassembles(s.title);
  }

  /** One block per service, in order; absent services are none. */
  function Render(services: Option<seq<Service>>): (r: seq<ServiceView>)
    ensures |r| == |services.GetOr([])|
    ensures forall i :: 0 <= i < |r| ==> r[i] == RenderService(services.GetOr([])[i], i)
  {
    var ss := services.GetOr([]);
    seq(|ss|, i requires 0 <= i < |ss| => RenderService(ss[i], i))
  }

  /** A supplied highlighted word does not shorten the rest of the title: its first word is still dropped. */
  lemma HighlightDoesNotChangeRemaining(s: Service, w: string)
    requires w != ""
    ensures RenderService(s.(highlightedWord := Some(w)), 0).remaining == RenderService(s, 0).remaining
    ensures RenderService(s.(highlightedWord := Some(w)), 0).highlighted == w
  {
  }
}
