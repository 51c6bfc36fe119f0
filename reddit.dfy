/**
 * The relationship-drama feed: the posts (mock posts when no Reddit client is configured), a
 * keyword classifier that finds legal issues in a post, and the text shared on social media.
 * The Reddit API is an oracle parameter.
 */
module Reddit {
  import opened Wrappers
  import opened Text
  import opened Sorting

  const DefaultJurisdiction := "United States"
  const Disclaimer := "This analysis is for entertainment purposes only and does not constitute legal advice. Consult with a qualified attorney for actual legal matters."
  const ShareImage := "https://images.pexels.com/photos/5668858/pexels-photo-5668858.jpeg?auto=compress&cs=tinysrgb&w=800&h=600&fit=crop"
  const FixedHashtags := ["#JusticeGPT", "#LegalDrama", "#RelationshipAdvice", "#SueYourEx"]
  const AlertTitle := "Legal Drama Alert! "
  const DescriptionLead := "JusticeGPT analyzed this relationship drama and found potential "
  const DescriptionTail := " issues. Entertainment value: "
  const UrgentAdvice := "Seek immediate legal counsel and consider contacting law enforcement if you feel unsafe."
  const DocumentAdvice := "Document all incidents and consult with an attorney to understand your options."
  const RecordsAdvice := "Keep records of any concerning behavior and consider mediation or direct communication first."

  /** The fire emoji, U+1F525. */
  const FireGlyph := "\U{1F525}"
  /** The four code points the share title repeats: the UTF-8 bytes of U+1F525 read as Windows-1252. */
  const MojibakeFire := "\U{F0}\U{178}\U{201D}\U{A5}"

  /** A Reddit post; `createdUtc` is in seconds. */
  datatype Post = Post(id: string, title: string, selftext: string, author: string, createdUtc: real,
                       score: int, numComments: int, url: string, subreddit: string, permalink: string)

  datatype Issue = Harassment | Defamation | PropertyIssue | Privacy | Threats

  function IssueName(issue: Issue): (r: string)
    ensures forall i | 0 <= i < |r| :: 'a' <= r[i] <= 'z'
  {
    match issue
    case Harassment => "harassment"
    case Defamation => "defamation"
    case PropertyIssue => "property"
    case Privacy => "privacy"
    case Threats => "threats"
  }

  /** The keyword table, in its order of entries. */
  const AllIssues := [Harassment, Defamation, PropertyIssue, Privacy, Threats]

  /** An issue's place in the keyword table. */
  function Rank(issue: Issue): (r: nat)
    ensures r < |AllIssues| && AllIssues[r] == issue
  {
    match issue
    case Harassment => 0
    case Defamation => 1
    case PropertyIssue => 2
    case Privacy => 3
    case Threats => 4
  }

  function Keywords(issue: Issue): seq<string> {
    match issue
    case Harassment => ["harass", "stalk", "follow", "won't stop", "blocking"]
    case Defamation => ["lies", "spreading", "reputation", "false", "slander"]
    case PropertyIssue => ["belongings", "stuff", "return", "won't give back", "stole"]
    case Privacy => ["private", "sharing", "photos", "personal information"]
    case Threats => ["threat", "violence", "hurt", "harm", "kill"]
  }

  /** The two claims an issue suggests. */
  function Claims(issue: Issue): (r: seq<string>)
    ensures |r| == 2
  {
    match issue
    case Harassment => ["Restraining Order", "Harassment Charges"]
    case Defamation => ["Defamation Lawsuit", "Cease and Desist"]
    case PropertyIssue => ["Property Recovery", "Conversion Claim"]
    case Privacy => ["Privacy Violation", "Revenge Porn (if applicable)"]
    case Threats => ["Criminal Charges", "Protective Order"]
  }

  /** The text searched: title and body, lowercased. */
  function PostText(post: Post): string {
    Lower(post.title + " " + post.selftext)
  }

  /** Some keyword of the issue occurs in the text. */
  predicate Hit(text: string, issue: Issue) {
    exists k | k in Keywords(issue) :: Contains(text, k)
  }

  /** The issues of `issues` that the text hits, in their order. */
  function DetectedAmong(issues: seq<Issue>, text: string): (r: seq<Issue>)
    ensures |r| <= |issues|
  {
    if issues == [] then []
    else
      var last := issues[|issues| - 1];
      DetectedAmong(issues[..|issues| - 1], text) + (if Hit(text, last) then [last] else [])
  }

  function DetectedIssues(text: string): seq<Issue> {
    DetectedAmong(AllIssues, text)
  }

  /** The claims of each issue, two per issue, in the order of the issues. */
  function ClaimsOf(issues: seq<Issue>): (r: seq<string>)
    ensures |r| == 2 * |issues|
  {
    if issues == [] then [] else ClaimsOf(issues[..|issues| - 1]) + Claims(issues[|issues| - 1])
  }

  datatype Severity = Low | Medium | High

  function SeverityOf(issues: seq<Issue>): Severity {
    if Threats in issues || Harassment in issues then High
    else if |issues| > 1 then Medium
    else Low
  }

  function Recommendation(severity: Severity): string {
    match severity
    case High => UrgentAdvice
    case Medium => DocumentAdvice
    case Low => RecordsAdvice
  }

  /** The 1-10 entertainment scale. */
  type Rating = x: int | 1 <= x <= 10 witness 1

  /** `Math.round`: halves go up. */
  function Round(x: real): (r: int)
    ensures r as real - 0.5 <= x < r as real + 0.5
  {
    (x + 0.5).Floor
  }

  /** `Math.min(10, Math.max(1, x))`. */
  function Clamp(x: real): (r: real)
    ensures 1.0 <= r <= 10.0
    ensures 1.0 <= x <= 10.0 ==> r == x
  {
    if x < 1.0 then 1.0 else if x > 10.0 then 10.0 else x
  }

  /** The drama score before clamping: votes, comments and issues. */
  function RawEntertainment(post: Post, issueCount: nat): real {
    post.score as real / 50.0 + post.numComments as real / 20.0 + (issueCount * 2) as real
  }

  function Rate(post: Post, issueCount: nat): Rating {
    Round(Clamp(RawEntertainment(post, issueCount)))
  }

  datatype Analysis = Analysis(post: Post, legalIssues: seq<Issue>, potentialClaims: seq<string>,
                               jurisdiction: string, severity: Severity, recommendation: string,
                               disclaimer: string, entertainmentValue: Rating)

  /** The keyword loop of `analyzeLegalIssues`: the issues the text hits and their claims. */
  method DetectIssues(text: string) returns (detected: seq<Issue>, claims: seq<string>)
    ensures detected == DetectedIssues(text)
    ensures claims == ClaimsOf(detected)
  {
    detected := [];
    claims := [];
    var k := 0;
    while k < |AllIssues|
      invariant 0 <= k <= |AllIssues|
      invariant detected == DetectedAmong(AllIssues[..k], text)
      invariant claims == ClaimsOf(detected)
    {
      var issue := AllIssues[k];
      if Hit(text, issue) {
        detected := detected + [issue];
        claims := claims + Claims(issue);
      }
      assert AllIssues[..k + 1][..k] == AllIssues[..k];
      k := k + 1;
    }
    assert AllIssues[..k] == AllIssues;
  }

  /** The analysis `analyzeLegalIssues` produces for a post and a jurisdiction. */
  function AnalysisOf(post: Post, jurisdiction: string): Analysis {
    var issues := DetectedIssues(PostText(post));
    Analysis(post, issues, ClaimsOf(issues), jurisdiction, SeverityOf(issues),
             Recommendation(SeverityOf(issues)), Disclaimer, Rate(post, |issues|))
  }

  /**
   * `analyzeLegalIssues`: the issues the post's text hits, in table order, two claims for each,
   * the severity ladder, the matching recommendation and the clamped, rounded score.
   */
  method AnalyzeLegalIssues(post: Post, jurisdiction: string) returns (a: Analysis)
    ensures a.post == post && a.jurisdiction == jurisdiction && a.disclaimer == Disclaimer
    ensures a.legalIssues == DetectedIssues(PostText(post))
    ensures a.potentialClaims == ClaimsOf(a.legalIssues)
    ensures a.severity == SeverityOf(a.legalIssues)
    ensures a.recommendation == Recommendation(a.severity)
    ensures a.entertainmentValue == Rate(post, |a.legalIssues|)
    ensures a == AnalysisOf(post, jurisdiction)
  {
    var detected, claims := DetectIssues(PostText(post));
    var severity := Low;
    if Threats in detected || Harassment in detected {
      severity := High;
    } else if |detected| > 1 {
      severity := Medium;
    }
    var value := Clamp(RawEntertainment(post, |detected|));
    a := Analysis(post, detected, claims, jurisdiction, severity, Recommendation(severity),
                  Disclaimer, Round(value));
  }

  /** An issue is detected exactly when one of its keywords occurs in the text. */
  lemma {:induction false} DetectedAmongIff(issues: seq<Issue>, text: string, issue: Issue)
    ensures issue in DetectedAmong(issues, text) <==> issue in issues && Hit(text, issue)
  {
    if issues != [] {
      var init := issues[..|issues| - 1];
      DetectedAmongIff(init, text, issue);
      assert issues == init + [issues[|issues| - 1]];
    }
  }

  lemma DetectedIff(text: string, issue: Issue)
    ensures issue in DetectedIssues(text) <==> exists k | k in Keywords(issue) :: Contains(text, k)
  {
    DetectedAmongIff(AllIssues, text, issue);
    assert AllIssues[Rank(issue)] == issue;
  }

  /** Strictly increasing table positions. */
  predicate Ordered(issues: seq<Issue>) {
    forall a, b | 0 <= a < b < |issues| :: Rank(issues[a]) < Rank(issues[b])
  }

  /** Filtering keeps the table order, so no issue is reported twice. */
  lemma {:induction false} DetectedAmongOrdered(issues: seq<Issue>, text: string)
    requires Ordered(issues)
    ensures Ordered(DetectedAmong(issues, text))
  {
    if issues != [] {
      var init := issues[..|issues| - 1];
      var last := issues[|issues| - 1];
      DetectedAmongOrdered(init, text);
      var d0 := DetectedAmong(init, text);
      forall x | x in d0 ensures Rank(x) < Rank(last) {
        DetectedAmongIff(init, text, x);
        var a :| 0 <= a < |init| && init[a] == x;
      }
    }
  }

  lemma DetectedInTableOrder(text: string)
    ensures var d := DetectedIssues(text);
            && |d| <= |AllIssues|
            && Ordered(d)
            && (forall a, b | 0 <= a < b < |d| :: d[a] != d[b])
  {
    assert Rank(AllIssues[1]) == 1 && Rank(AllIssues[2]) == 2 && Rank(AllIssues[3]) == 3;
    assert Ordered(AllIssues);
    DetectedAmongOrdered(AllIssues, text);
  }

  /** Claims come in pairs: positions `2j` and `2j+1` are the claims of the `j`-th issue. */
  lemma {:induction false} ClaimsPairs(issues: seq<Issue>)
    ensures forall j | 0 <= j < |issues| ::
              ClaimsOf(issues)[2 * j] == Claims(issues[j])[0] && ClaimsOf(issues)[2 * j + 1] == Claims(issues[j])[1]
  {
    if issues != [] {
      var init := issues[..|issues| - 1];
      ClaimsPairs(init);
      var c := ClaimsOf(issues);
      assert c == ClaimsOf(init) + Claims(issues[|issues| - 1]);
      forall j | 0 <= j < |issues|
        ensures c[2 * j] == Claims(issues[j])[0] && c[2 * j + 1] == Claims(issues[j])[1]
      {
        var pre := ClaimsOf(init);
        if j < |init| {
          assert issues[j] == init[j];
          assert c[2 * j] == pre[2 * j] && c[2 * j + 1] == pre[2 * j + 1];
        } else {
          var tail := Claims(issues[j]);
          assert 2 * j == |pre|;
          assert c[2 * j] == tail[0] && c[2 * j + 1] == tail[1];
        }
      }
    }
  }

  /** The severity ladder in terms of the post's text. */
  lemma SeverityLadder(text: string)
    ensures var s := SeverityOf(DetectedIssues(text));
            && (s == High <==> Hit(text, Threats) || Hit(text, Harassment))
            && (s == Medium <==> !Hit(text, Threats) && !Hit(text, Harassment) && |DetectedIssues(text)| > 1)
  {
    DetectedIff(text, Threats);
    DetectedIff(text, Harassment);
  }

  /** More issues never lower the score. */
  lemma RatingMonotone(post: Post, m: nat, n: nat)
    requires m <= n
    ensures Rate(post, m) <= Rate(post, n)
  {
    var x := Clamp(RawEntertainment(post, m));
    var y := Clamp(RawEntertainment(post, n));
    assert x <= y;
    assert (x + 0.5).Floor <= (y + 0.5).Floor;
  }

  /** `Math.ceil(value / 2)`: the number of glyphs in the drama meter. */
  function MeterLength(value: Rating): (n: nat)
    ensures 2 * n >= value && 2 * (n - 1) < value
  {
    (value + 1) / 2
  }

  datatype ShareContent = ShareContent(title: string, description: string, hashtags: seq<string>, image: string)

  function Hashtag(issue: Issue): string {
    "#" + Capitalize(IssueName(issue))
  }

  function IssueHashtags(issues: seq<Issue>): (r: seq<string>)
    ensures |r| == |issues| && forall j | 0 <= j < |issues| :: r[j] == Hashtag(issues[j])
  {
    if issues == [] then [] else [Hashtag(issues[0])] + IssueHashtags(issues[1..])
  }

  function IssueNames(issues: seq<Issue>): (r: seq<string>)
    ensures |r| == |issues| && forall j | 0 <= j < |issues| :: r[j] == IssueName(issues[j])
  {
    if issues == [] then [] else [IssueName(issues[0])] + IssueNames(issues[1..])
  }

  /** The share title: the alert and a meter of `ceil(value / 2)` copies of `glyph`. */
  function ShareTitle(value: Rating, glyph: string): string {
    AlertTitle + Repeat(glyph, MeterLength(value))
  }

  function ShareDescription(analysis: Analysis): string {
    DescriptionLead + Join(IssueNames(analysis.legalIssues), ", ") + DescriptionTail
      + NatToString(analysis.entertainmentValue) + "/10"
  }

  function ShareHashtags(issues: seq<Issue>): seq<string> {
    FixedHashtags + IssueHashtags(issues)
  }

  /** The shareable post, with the drama meter made of `glyph`. */
  function ShareWith(analysis: Analysis, glyph: string): ShareContent {
    ShareContent(ShareTitle(analysis.entertainmentValue, glyph), ShareDescription(analysis),
                 ShareHashtags(analysis.legalIssues), ShareImage)
  }

  /** `generateShareableContent` as written: the meter repeats a mis-decoded fire emoji. */
  function ShareableContentAsWritten(analysis: Analysis): ShareContent {
    ShareWith(analysis, MojibakeFire)
  }

  /** `generateShareableContent` with the fire emoji that the drama toast also uses. */
  function ShareableContent(analysis: Analysis): ShareContent {
    ShareWith(analysis, FireGlyph)
  }

  lemma {:induction false} RepeatLength(glyph: string, n: nat)
    ensures |Repeat(glyph, n)| == n * |glyph|
  {
    if n > 0 {
      RepeatLength(glyph, n - 1);
    }
  }

  /** A repeated single character is that character at every position. */
  lemma {:induction false} RepeatChar(c: char, n: nat)
    ensures |Repeat([c], n)| == n
    ensures forall i | 0 <= i < n :: Repeat([c], n)[i] == c
  {
    if n > 0 {
      RepeatChar(c, n - 1);
    }
  }

  /** The share title ends in `ceil(value / 2)` fire emoji and nothing else. */
  lemma ShareTitleShape(analysis: Analysis)
    ensures var t := ShareableContent(analysis).title;
            && StartsWith(t, AlertTitle)
            && |t| == |AlertTitle| + MeterLength(analysis.entertainmentValue)
            && (forall i | |AlertTitle| <= i < |t| :: t[i] == '\U{1F525}')
  {
    var n := MeterLength(analysis.entertainmentValue);
    var t := ShareTitle(analysis.entertainmentValue, FireGlyph);
    RepeatChar('\U{1F525}', n);
    StartsWithAppend(AlertTitle, Repeat(FireGlyph, n));
    forall i | |AlertTitle| <= i < |t| ensures t[i] == '\U{1F525}' {
      assert t[i] == Repeat(FireGlyph, n)[i - |AlertTitle|];
    }
  }

  /**
   * The hashtags are the four fixed ones, then one per issue, each of which lowercases back to
   * the issue's name.
   */
  lemma ShareHashtagsShape(analysis: Analysis)
    ensures var h := ShareableContent(analysis).hashtags;
            && |h| == 4 + |analysis.legalIssues|
            && h[..4] == FixedHashtags
            && (forall j | 0 <= j < |analysis.legalIssues| ::
                  h[4 + j][0] == '#' && Lower(h[4 + j][1..]) == IssueName(analysis.legalIssues[j]))
  {
    var issues := analysis.legalIssues;
    var h := ShareHashtags(issues);
    forall j | 0 <= j < |issues|
      ensures h[4 + j][0] == '#' && Lower(h[4 + j][1..]) == IssueName(issues[j])
    {
      var name := IssueName(issues[j]);
      assert h[4 + j] == "#" + Capitalize(name);
      assert ("#" + Capitalize(name))[1..] == Capitalize(name);
      LowerCapitalize(name);
    }
  }

  /**
   * As written, the share title's meter is never the one the drama toast shows: each of its
   * glyphs is four other characters, starting with U+00F0.
   */
  lemma MeterMismatch(analysis: Analysis)
    ensures var n := MeterLength(analysis.entertainmentValue);
            var t := ShareableContentAsWritten(analysis).title;
            && t != AlertTitle + Repeat(FireGlyph, n)
            && |t| == |AlertTitle| + 4 * n
            && t[|AlertTitle|] == '\U{F0}'
  {
    var n := MeterLength(analysis.entertainmentValue);
    RepeatLength(MojibakeFire, n);
    RepeatChar('\U{1F525}', n);
    var t := ShareTitle(analysis.entertainmentValue, MojibakeFire);
    assert t[|AlertTitle|] == Repeat(MojibakeFire, n)[0];
    assert (AlertTitle + Repeat(FireGlyph, n))[|AlertTitle|] == '\U{1F525}';
  }

  const Mock1Title := "My ex is refusing to return my belongings after breakup"
  const Mock1Text := "We broke up 3 months ago and my ex still has my laptop, some clothes, and my grandmother's ring. They keep making excuses and won't meet up. What are my legal options?"
  const Mock2Title := "Ex-boyfriend won't stop contacting me despite blocking"
  const Mock2Text := "My ex keeps creating new social media accounts to message me. He shows up at my work and follows me. I've told him to stop but he won't listen. Is this harassment?"
  const Mock3Title := "Ex is spreading lies about me to mutual friends"
  const Mock3Text := "After our breakup, my ex has been telling everyone that I cheated (I didn't) and sharing private information about our relationship. This is affecting my reputation and mental health."

  /** The three posts shown when no Reddit client is configured; `nowMs` is `Date.now()`. */
  function MockPosts(nowMs: int): (r: seq<Post>)
    ensures |r| == 3
  {
    var now := nowMs as real / 1000.0;
    [ Post("mock1", Mock1Title, Mock1Text, "throwaway123", now - 3600.0, 245, 67,
           "https://reddit.com/mock1", "legaladvice", "/r/legaladvice/comments/mock1"),
      Post("mock2", Mock2Title, Mock2Text, "scared_user", now - 7200.0, 189, 43,
           "https://reddit.com/mock2", "relationship_advice", "/r/relationship_advice/comments/mock2"),
      Post("mock3", Mock3Title, Mock3Text, "defamed_person", now - 10800.0, 156, 89,
           "https://reddit.com/mock3", "AmItheAsshole", "/r/AmItheAsshole/comments/mock3") ]
  }

  function Score(p: Post): int {
    p.score
  }

  /**
   * `fetchRelationshipDrama(limit)`: `fetched` is what the Reddit API delivered from all the
   * subreddits (a failure when authentication throws); no client id, or a failure, gives the mocks.
   */
  function FetchRelationshipDrama(clientConfigured: bool, fetched: Result<seq<Post>, string>, limit: nat,
                                  nowMs: int): (r: seq<Post>)
    ensures !clientConfigured || fetched.Failure? ==> r == MockPosts(nowMs)
  {
    if !clientConfigured then MockPosts(nowMs)
    else match fetched
      case Failure(_) => MockPosts(nowMs)
      case Success(all) => TakeFirst(SortDesc(all, Score), limit)
  }

  /**
   * With a client and an answer, the feed is at most `limit` of the fetched posts, highest score
   * first, and every post left out scores no higher than every post shown.
   */
  lemma FetchedTop(fetched: seq<Post>, limit: nat, nowMs: int)
    ensures var r := FetchRelationshipDrama(true, Success(fetched), limit, nowMs);
            && |r| <= limit
            && SortedDesc(r, Score)
            && (forall p | p in r :: p in fetched)
            && (forall p, i | p in fetched && p !in r && 0 <= i < |r| :: Score(p) <= Score(r[i]))
  {
    TopOf(fetched, Score, limit);
    TopExcludes(fetched, Score, limit);
  }
}
