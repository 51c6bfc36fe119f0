/**
 * The drama page: the severity badge colours, the drama emoji scale, the guard before analysing
 * a post and the text copied to the clipboard when the browser cannot share.
 */
module SueYourExMode {
  import opened Wrappers
  import opened Text
  import opened Reddit
  import SueYourEx

  const SleepingFace := "\U{1F634}"

  const HighBadge := "text-red-500 bg-red-100 dark:bg-red-900/30"
  const MediumBadge := "text-yellow-500 bg-yellow-100 dark:bg-yellow-900/30"
  const LowBadge := "text-green-500 bg-green-100 dark:bg-green-900/30"

  /** `getSeverityColor`: the badge classes of a severity. */
  function SeverityColor(severity: Severity): string {
    match severity
    case High => HighBadge
    case Medium => MediumBadge
    case Low => LowBadge
  }

  /** The three severities get three different badge classes. */
  lemma SeverityColorsDistinct()
    ensures SeverityColor(Low) != SeverityColor(Medium)
    ensures SeverityColor(Medium) != SeverityColor(High)
    ensures SeverityColor(Low) != SeverityColor(High)
  {
    assert |LowBadge| == 48;
    assert |MediumBadge| == 51;
    assert |HighBadge| == 42;
  }

  /** How many fires the page shows for a score: three from 8, two from 6, one from 4. */
  function FireCount(value: int): (n: nat)
    ensures n <= 3
    ensures n == 3 <==> value >= 8
    ensures n >= 2 <==> value >= 6
    ensures n >= 1 <==> value >= 4
  {
    if value >= 8 then 3 else if value >= 6 then 2 else if value >= 4 then 1 else 0
  }

  /** `getDramaEmoji`: that many fires, or a sleeping face when there are none. */
  function DramaEmoji(value: int): (r: string)
    ensures FireCount(value) == 0 ==> r == SleepingFace
    ensures FireCount(value) > 0 ==> r == Repeat(FireGlyph, FireCount(value))
  {
    if value >= 8 then FireGlyph + FireGlyph + FireGlyph
    else if value >= 6 then FireGlyph + FireGlyph
    else if value >= 4 then FireGlyph
    else SleepingFace
  }

  /** A higher score never shows fewer fires. */
  lemma FireCountMonotone(m: int, n: int)
    requires m <= n
    ensures FireCount(m) <= FireCount(n)
  {
  }

  /** The clipboard text when `navigator.share` is missing. */
  function ShareText(content: ShareContent): string {
    content.title + "\n\n" + content.description + "\n\n" + Join(content.hashtags, " ")
  }

  /** The clipboard text starts with the title and holds the description and the hashtags. */
  lemma ShareTextParts(content: ShareContent)
    ensures StartsWith(ShareText(content), content.title)
    ensures Contains(ShareText(content), content.description)
    ensures Contains(ShareText(content), Join(content.hashtags, " "))
  {
    var t := content.title + "\n\n";
    var d := content.description;
    var rest := "\n\n" + Join(content.hashtags, " ");
    assert ShareText(content) == content.title + ("\n\n" + d + rest);
    StartsWithAppend(content.title, "\n\n" + d + rest);
    assert ShareText(content) == t + d + rest;
    ContainsMiddle(t, d, rest);
    assert ShareText(content) == (t + d + "\n\n") + Join(content.hashtags, " ");
    ContainsSuffix(t + d + "\n\n", Join(content.hashtags, " "));
  }

  /** The page's own state beside the drama hook. */
  class ModePage {
    var selectedPost: Option<string>
    var jurisdiction: string
    const hook: SueYourEx.Hook

    constructor(hook: SueYourEx.Hook)
      ensures this.hook == hook && selectedPost == None && jurisdiction == DefaultJurisdiction
    {
      this.hook := hook;
      selectedPost := None;
      jurisdiction := DefaultJurisdiction;
    }

    /** `handleAnalyzePost(id)`: an id that is not among the posts changes nothing. */
    method HandleAnalyzePost(id: string)
      requires hook.Valid()
      modifies this, hook
      ensures hook.Valid()
      ensures (forall k | 0 <= k < |old(hook.posts)| :: old(hook.posts)[k].id != id) ==>
                selectedPost == old(selectedPost) && hook.analyses == old(hook.analyses)
      ensures forall k | 0 <= k < |old(hook.posts)| && old(hook.posts)[k].id == id ::
                selectedPost == Some(id)
                && SueYourEx.Lookup(hook.analyses, id) == Some(AnalysisOf(FindPost(old(hook.posts), id).value, jurisdiction))
                && (forall other | other != id :: SueYourEx.Lookup(hook.analyses, other) == SueYourEx.Lookup(old(hook.analyses), other))
      ensures hook.posts == old(hook.posts) && jurisdiction == old(jurisdiction)
    {
      var post := FindPost(hook.posts, id);
      if post.None? {
        return;
      }
      selectedPost := Some(id);
      var _ := hook.AnalyzeDrama(post.value, jurisdiction);
    }
  }

  /** `posts.find(p => p.id === id)`. */
  function FindPost(posts: seq<Post>, id: string): (r: Option<Post>)
    ensures r.None? <==> forall k | 0 <= k < |posts| :: posts[k].id != id
    ensures r.Some? ==> r.value in posts && r.value.id == id
  {
    Find(posts, (p: Post) => p.id == id)
  }
}
