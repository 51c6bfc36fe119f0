/**
 * The document list of the documents page: typing by file name, favourites, deletion, the tag
 * merge after analysis, the notarization and upload updates, and the filtered, sorted view.
 */
module Documents {
  import opened Wrappers
  import Text

  datatype DocType = Contract | LegalBrief | Agreement | CourtFiling | Template | Other

  function TypeName(t: DocType): string {
    match t
    case Contract => "contract"
    case LegalBrief => "legal-brief"
    case Agreement => "agreement"
    case CourtFiling => "court-filing"
    case Template => "template"
    case Other => "other"
  }

  datatype DocStatus = Analyzed | Pending | Failed | Draft

  /** A document; `uploadDate` is an instant in milliseconds, and an absent flag reads as false. */
  datatype Document = Document(
    id: string, name: string, docType: DocType, size: string, uploadDate: int, status: DocStatus,
    summary: Option<string>, tags: seq<string>, isFavorite: bool, content: Option<string>,
    isNotarized: bool, notarizationId: Option<string>)

  // ---------------------------------------------------------------------------------------
  // Typing by file name

  /** The substring rules, tried in this order. */
  function TypeRules(): seq<(string, DocType)> {
    [("contract", Contract), ("agreement", Agreement), ("template", Template),
     ("brief", LegalBrief), ("filing", CourtFiling)]
  }

  /** The type of the first rule whose word occurs in `name`, else `Other`. */
  function FirstMatch(rules: seq<(string, DocType)>, name: string): DocType {
    if rules == [] then Other
    else if Text.Contains(name, rules[0].0) then rules[0].1
    else FirstMatch(rules[1..], name)
  }

  /** `getDocumentType`: substring tests on the lowercased file name. */
  function GetDocumentType(filename: string): DocType {
    var name := Text.Lower(filename);
    if Text.Contains(name, "contract") then Contract
    else if Text.Contains(name, "agreement") then Agreement
    else if Text.Contains(name, "template") then Template
    else if Text.Contains(name, "brief") then LegalBrief
    else if Text.Contains(name, "filing") then CourtFiling
    else Other
  }

  /** The if-chain is the first-match search over the rule table, and `Other` means no rule fired. */
  lemma DocumentTypeIsFirstMatch(filename: string)
    ensures GetDocumentType(filename) == FirstMatch(TypeRules(), Text.Lower(filename))
    ensures GetDocumentType(filename) == Other <==>
      forall i | 0 <= i < |TypeRules()| :: !Text.Contains(Text.Lower(filename), TypeRules()[i].0)
  {
    var r := TypeRules();
    var n := Text.Lower(filename);
    assert r[5..] == [] && r[4..][1..] == r[5..] && r[3..][1..] == r[4..];
    assert r[2..][1..] == r[3..] && r[1..][1..] == r[2..];
    assert FirstMatch(r[4..], n) == if Text.Contains(n, "filing") then CourtFiling else Other;
    assert FirstMatch(r[3..], n) == if Text.Contains(n, "brief") then LegalBrief else FirstMatch(r[4..], n);
    assert FirstMatch(r[2..], n) == if Text.Contains(n, "template") then Template else FirstMatch(r[3..], n);
    assert FirstMatch(r[1..], n) == if Text.Contains(n, "agreement") then Agreement else FirstMatch(r[2..], n);
  }

  /** The earlier rule wins: a contract named an agreement is still a contract. */
  lemma ContractBeforeAgreement()
    ensures GetDocumentType("Contract_Agreement.txt") == Contract
  {
    assert Text.Lower("Contract_Agreement.txt") == "contract" + "_agreement.txt";
    Text.StartsWithAppend("contract", "_agreement.txt");
  }

  // ---------------------------------------------------------------------------------------
  // Favourites and deletion

  function Flip(d: Document): Document {
    d.(isFavorite := !d.isFavorite)
  }

  /** `toggleFavorite`: flips the flag of the documents with that id and touches nothing else. */
  function ToggleFavorite(docs: seq<Document>, id: string): (r: seq<Document>)
    ensures |r| == |docs|
    ensures forall i | 0 <= i < |docs| :: r[i] == if docs[i].id == id then Flip(docs[i]) else docs[i]
  {
    seq(|docs|, i requires 0 <= i < |docs| => if docs[i].id == id then Flip(docs[i]) else docs[i])
  }

  /** Toggling twice restores the list. */
  lemma ToggleTwice(docs: seq<Document>, id: string)
    ensures ToggleFavorite(ToggleFavorite(docs, id), id) == docs
  {
  }

  /** `deleteDocument`: keep the documents whose id differs, in order. */
  function DeleteDocument(docs: seq<Document>, id: string): (r: seq<Document>)
    ensures forall d | d in r :: d.id != id
    ensures forall d | d in docs && d.id != id :: d in r
    ensures forall d | d in r :: d in docs
  {
    if docs == [] then []
    else if docs[0].id == id then DeleteDocument(docs[1..], id)
    else [docs[0]] + DeleteDocument(docs[1..], id)
  }

  /** Deletion works piece by piece, so it keeps the order of what it keeps. */
  lemma {:induction false} DeleteAppend(a: seq<Document>, b: seq<Document>, id: string)
    ensures DeleteDocument(a + b, id) == DeleteDocument(a, id) + DeleteDocument(b, id)
  {
    if a == [] {
      assert a + b == b;
    } else {
      assert (a + b)[1..] == a[1..] + b;
      DeleteAppend(a[1..], b, id);
    }
  }

  /** Deleting an id that no document has changes nothing; deleting twice is deleting once. */
  lemma {:induction false} DeleteAbsent(docs: seq<Document>, id: string)
    requires forall i | 0 <= i < |docs| :: docs[i].id != id
    ensures DeleteDocument(docs, id) == docs
  {
    if docs != [] {
      DeleteAbsent(docs[1..], id);
    }
  }

  lemma DeleteTwice(docs: seq<Document>, id: string)
    ensures DeleteDocument(DeleteDocument(docs, id), id) == DeleteDocument(docs, id)
  {
    DeleteAbsent(DeleteDocument(docs, id), id);
  }

  // ---------------------------------------------------------------------------------------
  // Tags after analysis

  /** `arr.filter((t, i) => arr.indexOf(t) === i)`: the first occurrence of each tag, in order. */
  function Dedup(s: seq<string>): (r: seq<string>)
    ensures forall i, j | 0 <= i < j < |r| :: r[i] != r[j]
    ensures forall x :: x in r <==> x in s
  {
    if s == [] then []
    else
      var prefix := Dedup(s[..|s| - 1]);
      var last := s[|s| - 1];
      assert s == s[..|s| - 1] + [last];
      if last in s[..|s| - 1] then prefix else prefix + [last]
  }

  /** A list without repeats is its own deduplication. */
  lemma {:induction false} DedupDistinct(s: seq<string>)
    requires forall i, j | 0 <= i < j < |s| :: s[i] != s[j]
    ensures Dedup(s) == s
  {
    if s != [] {
      DedupDistinct(s[..|s| - 1]);
      assert s == s[..|s| - 1] + [s[|s| - 1]];
    }
  }

  /** `point.toLowerCase().split(' ')[0]`. */
  function FirstWord(point: string): string {
    Text.BeforeFirst(Text.Lower(point), ' ')
  }

  function FirstWords(points: seq<string>): (r: seq<string>)
    ensures |r| == |points| && forall i | 0 <= i < |points| :: r[i] == FirstWord(points[i])
  {
    seq(|points|, i requires 0 <= i < |points| => FirstWord(points[i]))
  }

  /** The tags after analysis: the old tags, then the first words of up to three key points. */
  function MergeTags(tags: seq<string>, keyPoints: seq<string>): (r: seq<string>)
    ensures forall i, j | 0 <= i < j < |r| :: r[i] != r[j]
    ensures forall t :: t in r <==>
      t in tags || exists i | 0 <= i < |keyPoints| && i < 3 :: t == FirstWord(keyPoints[i])
  {
    var added := FirstWords(if |keyPoints| <= 3 then keyPoints else keyPoints[..3]);
    var r := Dedup(tags + added);
    assert forall t :: t in added <==> exists i | 0 <= i < |keyPoints| && i < 3 :: t == FirstWord(keyPoints[i]);
    r
  }

  /** Old tags without repeats keep their places at the front. */
  lemma {:induction false} MergeKeepsTags(tags: seq<string>, added: seq<string>)
    requires forall i, j | 0 <= i < j < |tags| :: tags[i] != tags[j]
    ensures |Dedup(tags + added)| >= |tags| && Dedup(tags + added)[..|tags|] == tags
  {
    if added == [] {
      assert tags + added == tags;
      DedupDistinct(tags);
    } else {
      var init, last := added[..|added| - 1], added[|added| - 1];
      assert tags + added == (tags + init) + [last];
      MergeKeepsTags(tags, init);
      DedupSnoc(tags + init, last);
      var p := Dedup(tags + init);
      assert (p + [last])[..|tags|] == p[..|tags|];
    }
  }

  /** Appending one tag keeps the deduplication so far and adds the tag when it is new. */
  lemma DedupSnoc(s: seq<string>, x: string)
    ensures Dedup(s + [x]) == if x in s then Dedup(s) else Dedup(s) + [x]
  {
    assert (s + [x])[..|s|] == s;
  }

  // ---------------------------------------------------------------------------------------
  // Updates of one document

  /** The first document with that id (`documents.find`). */
  function Find(docs: seq<Document>, id: string): (r: Option<Document>)
    ensures r.Some? ==> r.value in docs && r.value.id == id
    ensures r.None? ==> forall i | 0 <= i < |docs| :: docs[i].id != id
  {
    Wrappers.Find(docs, (d: Document) => d.id == id)
  }

  /** `documents.map(d => d.id === id ? updated : d)`. */
  function ReplaceId(docs: seq<Document>, id: string, updated: Document): (r: seq<Document>)
    ensures |r| == |docs|
    ensures forall i | 0 <= i < |docs| :: r[i] == if docs[i].id == id then updated else docs[i]
  {
    seq(|docs|, i requires 0 <= i < |docs| => if docs[i].id == id then updated else docs[i])
  }

  /** A present, non-empty content: an empty string is falsy and counts as missing. */
  predicate HasContent(d: Document) {
    d.content.Some? && d.content.value != ""
  }

  /**
   * The page's `notarizeDocument` update: with the hook's transaction id (none when it threw),
   * the document is marked notarized; a missing document or one without content is left alone.
   */
  function NotarizeUpdate(docs: seq<Document>, id: string, transactionId: Option<string>): (r: seq<Document>)
    ensures |r| == |docs|
    ensures Find(docs, id).None? || !HasContent(Find(docs, id).value) || transactionId.None? ==> r == docs
    ensures forall i | 0 <= i < |docs| && docs[i].id != id :: r[i] == docs[i]
    ensures Find(docs, id).Some? && HasContent(Find(docs, id).value) && transactionId.Some? ==>
      forall i | 0 <= i < |docs| && docs[i].id == id ::
        r[i].isNotarized && r[i].notarizationId == transactionId
  {
    match Find(docs, id)
    case None => docs
    case Some(d) =>
      if !HasContent(d) || transactionId.None? then docs
      else ReplaceId(docs, id, d.(isNotarized := true, notarizationId := transactionId))
  }

  /** The analysis service's answer: a summary and key points, or a failure. */
  datatype Analysis = Analysis(summary: string, keyPoints: seq<string>)

  const AnalysisFailedSummary := "Analysis failed. Please try again."

  /**
   * `analyzeDocumentContent`: on success the document is analyzed, with the summary and the
   * merged tags; on failure its status is the error status with a fixed summary.
   */
  function AnalyzeUpdate(docs: seq<Document>, id: string, configured: bool, analysis: Option<Analysis>)
    : (r: seq<Document>)
    ensures |r| == |docs|
    ensures Find(docs, id).None? || !HasContent(Find(docs, id).value) || !configured ==> r == docs
    ensures forall i | 0 <= i < |docs| && docs[i].id != id :: r[i] == docs[i]
    ensures Find(docs, id).Some? && HasContent(Find(docs, id).value) && configured ==>
      forall i | 0 <= i < |docs| && docs[i].id == id ::
        if analysis.Some? then
          r[i].status == Analyzed && r[i].summary == Some(analysis.value.summary)
          && r[i].tags == MergeTags(Find(docs, id).value.tags, analysis.value.keyPoints)
        else
          r[i].status == Failed && r[i].summary == Some(AnalysisFailedSummary)
          && r[i].tags == Find(docs, id).value.tags
  {
    match Find(docs, id)
    case None => docs
    case Some(d) =>
      if !HasContent(d) || !configured then docs
      else if analysis.Some? then
        ReplaceId(docs, id, d.(status := Analyzed, summary := Some(analysis.value.summary),
                               tags := MergeTags(d.tags, analysis.value.keyPoints)))
      else ReplaceId(docs, id, d.(status := Failed, summary := Some(AnalysisFailedSummary)))
  }

  // ---------------------------------------------------------------------------------------
  // Upload

  const MiB := 1024 * 1024
  const MaxUploadBytes := 10 * MiB

  /** `handleFileUpload` refuses files over 10 MiB. */
  predicate Accepted(size: nat) {
    size <= MaxUploadBytes
  }

  /** `(size / 1024 / 1024).toFixed(2)` in hundredths: the nearest, halves rounded up. */
  function MbHundredths(size: nat): (n: nat)
    ensures 2 * n * MiB <= 200 * size + MiB < 2 * (n + 1) * MiB
  {
    (200 * size + MiB) / (2 * MiB)
  }

  function TwoDigits(n: nat): string
    requires n < 100
  {
    [Text.DigitChar(n / 10), Text.DigitChar(n % 10)]
  }

  /** The size label, such as `2.40 MB`. */
  function SizeLabel(size: nat): string {
    var n := MbHundredths(size);
    Text.NatToString(n / 100) + "." + TwoDigits(n % 100) + " MB"
  }

  /** An accepted file is labelled at most 10.00 MB. */
  lemma AcceptedLabel(size: nat)
    requires Accepted(size)
    ensures MbHundredths(size) <= 1000
  {
  }

  /** The record `processUpload` prepends. */
  function NewDocument(now: nat, filename: string, size: nat, content: string): Document {
    Document(Text.NatToString(now), filename, GetDocumentType(filename), SizeLabel(size), now, Pending,
             None, [], false, Some(content), false, None)
  }

  /** `processUpload`: the new document first, then the old list. */
  function Upload(docs: seq<Document>, now: nat, filename: string, size: nat, content: string): (r: seq<Document>)
    ensures |r| == |docs| + 1 && r[1..] == docs
    ensures r[0].status == Pending && r[0].tags == [] && !r[0].isFavorite && r[0].content == Some(content)
    ensures r[0].docType == GetDocumentType(filename)
  {
    [NewDocument(now, filename, size, content)] + docs
  }

  /**
   * `processUpload` with the automatic analysis it starts when the AI is configured. That call
   * runs `analyzeDocumentContent` from the render before the upload, so it looks the new id up
   * in the old list: normally it is not there and nothing more happens, and should an old
   * document share the id, that old list is what gets saved.
   */
  function ProcessUpload(docs: seq<Document>, now: nat, filename: string, size: nat, content: string,
                         configured: bool, analysis: Option<Analysis>): (r: seq<Document>)
    ensures var id := Text.NatToString(now);
            && (!configured || Find(docs, id).None? ==> r == Upload(docs, now, filename, size, content))
            && (configured && Find(docs, id).Some? && HasContent(Find(docs, id).value) ==> |r| == |docs|)
  {
    var id := Text.NatToString(now);
    var stale := Find(docs, id);
    if configured && stale.Some? && HasContent(stale.value) then AnalyzeUpdate(docs, id, configured, analysis)
    else Upload(docs, now, filename, size, content)
  }

  /**
   * As written, an uploaded document is never analysed: even with the AI configured and an
   * answer at hand it stays pending, with no summary and no tags.
   */
  lemma UploadStaysPending(docs: seq<Document>, now: nat, filename: string, size: nat, content: string,
                           analysis: Analysis)
    requires Find(docs, Text.NatToString(now)).None?
    ensures var r := ProcessUpload(docs, now, filename, size, content, true, Some(analysis));
            && r[0].status == Pending && r[0].summary == None && r[0].tags == [] && r[1..] == docs
  {
  }

  /** `processUpload` with the analysis run on the list that holds the new document. */
  function ProcessUploadCorrected(docs: seq<Document>, now: nat, filename: string, size: nat, content: string,
                                  configured: bool, analysis: Option<Analysis>): (r: seq<Document>)
    ensures |r| == |docs| + 1
    ensures Find(docs, Text.NatToString(now)).None? ==> r[1..] == docs
    ensures r[0].id == Text.NatToString(now) && r[0].content == Some(content)
    ensures !configured || content == "" ==> r == Upload(docs, now, filename, size, content)
    ensures configured && content != "" && analysis.Some? ==>
              r[0].status == Analyzed && r[0].summary == Some(analysis.value.summary)
              && r[0].tags == MergeTags([], analysis.value.keyPoints)
    ensures configured && content != "" && analysis.None? ==>
              r[0].status == Failed && r[0].summary == Some(AnalysisFailedSummary) && r[0].tags == []
  {
    var id := Text.NatToString(now);
    var uploaded := Upload(docs, now, filename, size, content);
    assert Find(uploaded, id) == Some(uploaded[0]);
    var r := if configured then AnalyzeUpdate(uploaded, id, configured, analysis) else uploaded;
    assert Find(docs, id).None? ==> r[1..] == docs by {
      if Find(docs, id).None? {
        forall i | 0 <= i < |docs| ensures r[1..][i] == docs[i] {
          assert uploaded[i + 1] == docs[i];
        }
      }
    }
    r
  }

  // ---------------------------------------------------------------------------------------
  // Filtered, sorted view

  /** The search box: a case-insensitive substring of the name or of any tag. */
  predicate MatchesSearch(d: Document, search: string) {
    Text.Contains(Text.Lower(d.name), Text.Lower(search))
    || exists i | 0 <= i < |d.tags| :: Text.Contains(Text.Lower(d.tags[i]), Text.Lower(search))
  }

  predicate MatchesFilter(d: Document, filterType: string) {
    filterType == "all" || TypeName(d.docType) == filterType
  }

  function Select(docs: seq<Document>, search: string, filterType: string): (r: seq<Document>)
    ensures forall d | d in r :: d in docs && MatchesSearch(d, search) && MatchesFilter(d, filterType)
    ensures forall d | d in docs && MatchesSearch(d, search) && MatchesFilter(d, filterType) :: d in r
    ensures |r| <= |docs|
  {
    if docs == [] then []
    else if MatchesSearch(docs[0], search) && MatchesFilter(docs[0], filterType) then
      [docs[0]] + Select(docs[1..], search, filterType)
    else Select(docs[1..], search, filterType)
  }

  datatype SortBy = ByDate | ByName | ByType

  /** Code-point lexicographic order, standing in for `localeCompare`. */
  predicate LexLe(a: string, b: string) {
    a == [] || (b != [] && (a[0] < b[0] || (a[0] == b[0] && LexLe(a[1..], b[1..]))))
  }

  lemma {:induction false} LexTotal(a: string, b: string)
    ensures LexLe(a, b) || LexLe(b, a)
  {
    if a != [] && b != [] && a[0] == b[0] {
      LexTotal(a[1..], b[1..]);
    }
  }

  /** `a` may stay before `b`: the comparator does not put `b` first. */
  predicate Before(sortBy: SortBy, a: Document, b: Document) {
    match sortBy
    case ByDate => a.uploadDate >= b.uploadDate
    case ByName => LexLe(a.name, b.name)
    case ByType => LexLe(TypeName(a.docType), TypeName(b.docType))
  }

  lemma BeforeTotal(sortBy: SortBy, a: Document, b: Document)
    ensures Before(sortBy, a, b) || Before(sortBy, b, a)
  {
    match sortBy
    case ByDate =>
    case ByName => LexTotal(a.name, b.name);
    case ByType => LexTotal(TypeName(a.docType), TypeName(b.docType));
  }

  predicate Sorted(sortBy: SortBy, s: seq<Document>) {
    forall i | 0 < i < |s| :: Before(sortBy, s[i - 1], s[i])
  }

  /** Insert `d` ahead of the first element it may precede: ties keep `d` first. */
  function Insert(sortBy: SortBy, d: Document, s: seq<Document>): (r: seq<Document>)
    requires Sorted(sortBy, s)
    ensures Sorted(sortBy, r)
    ensures multiset(r) == multiset(s) + multiset{d}
    ensures r[0] == d || (s != [] && r[0] == s[0])
  {
    if s == [] || Before(sortBy, d, s[0]) then [d] + s
    else
      BeforeTotal(sortBy, d, s[0]);
      var rest := Insert(sortBy, d, s[1..]);
      assert s == [s[0]] + s[1..];
      [s[0]] + rest
  }

  /** `Array.prototype.sort` with the page's comparator, as a stable insertion sort. */
  function Sort(sortBy: SortBy, s: seq<Document>): (r: seq<Document>)
    ensures Sorted(sortBy, r) && multiset(r) == multiset(s)
  {
    if s == [] then []
    else
      assert s == [s[0]] + s[1..];
      Insert(sortBy, s[0], Sort(sortBy, s[1..]))
  }

  /** `a` and `b` compare equal: the comparator returns 0 for them. */
  predicate Tied(sortBy: SortBy, a: Document, b: Document) {
    match sortBy
    case ByDate => a.uploadDate == b.uploadDate
    case ByName => a.name == b.name
    case ByType => TypeName(a.docType) == TypeName(b.docType)
  }

  /** The elements of `s` that compare equal to `c`, in their order in `s`. */
  function TiedWith(sortBy: SortBy, c: Document, s: seq<Document>): seq<Document>
  {
    if s == [] then []
    else (if Tied(sortBy, s[0], c) then [s[0]] else []) + TiedWith(sortBy, c, s[1..])
  }

  lemma {:induction false} LexRefl(a: string)
    ensures LexLe(a, a)
  {
    if a != [] {
      LexRefl(a[1..]);
    }
  }

  /** Two documents that compare equal to a third may stand in either order. */
  lemma TiesBefore(sortBy: SortBy, a: Document, b: Document, c: Document)
    requires Tied(sortBy, a, c) && Tied(sortBy, b, c)
    ensures Before(sortBy, a, b)
  {
    match sortBy
    case ByDate =>
    case ByName => LexRefl(a.name);
    case ByType => LexRefl(TypeName(a.docType));
  }

  lemma TiedWithCons(sortBy: SortBy, c: Document, d: Document, s: seq<Document>)
    ensures TiedWith(sortBy, c, [d] + s) == (if Tied(sortBy, d, c) then [d] else []) + TiedWith(sortBy, c, s)
  {
    assert ([d] + s)[1..] == s;
  }

  lemma SortedTail(sortBy: SortBy, s: seq<Document>)
    requires Sorted(sortBy, s) && s != []
    ensures Sorted(sortBy, s[1..])
  {
    forall i | 0 < i < |s[1..]| ensures Before(sortBy, s[1..][i - 1], s[1..][i]) {
      assert s[1..][i - 1] == s[i] && s[1..][i] == s[i + 1];
    }
  }

  /** Inserting `d` puts it in front of every document it ties with and moves no other. */
  lemma {:induction false} InsertKeepsTies(sortBy: SortBy, d: Document, s: seq<Document>, c: Document)
    requires Sorted(sortBy, s)
    ensures TiedWith(sortBy, c, Insert(sortBy, d, s)) == (if Tied(sortBy, d, c) then [d] else []) + TiedWith(sortBy, c, s)
  {
    if s == [] || Before(sortBy, d, s[0]) {
      TiedWithCons(sortBy, c, d, s);
    } else {
      SortedTail(sortBy, s);
      var rest := Insert(sortBy, d, s[1..]);
      assert Insert(sortBy, d, s) == [s[0]] + rest;
      InsertKeepsTies(sortBy, d, s[1..], c);
      TiedWithCons(sortBy, c, s[0], rest);
      TiedWithCons(sortBy, c, s[0], s[1..]);
      assert s == [s[0]] + s[1..];
      if Tied(sortBy, d, c) {
        if Tied(sortBy, s[0], c) {
          TiesBefore(sortBy, d, s[0], c);
        }
        assert TiedWith(sortBy, c, s) == TiedWith(sortBy, c, s[1..]);
      } else {
        assert TiedWith(sortBy, c, rest) == TiedWith(sortBy, c, s[1..]);
      }
    }
  }

  /** The sort is stable: documents that compare equal keep their order in the input. */
  lemma {:induction false} SortStable(sortBy: SortBy, s: seq<Document>, c: Document)
    ensures TiedWith(sortBy, c, Sort(sortBy, s)) == TiedWith(sortBy, c, s)
  {
    if s != [] {
      SortStable(sortBy, s[1..], c);
      InsertKeepsTies(sortBy, s[0], Sort(sortBy, s[1..]), c);
    }
  }

  /** `filteredDocuments`. */
  function FilteredDocuments(docs: seq<Document>, search: string, filterType: string, sortBy: SortBy)
    : seq<Document>
  {
    Sort(sortBy, Select(docs, search, filterType))
  }

  /**
   * The view holds exactly the documents that match, each as often as it is listed, in the
   * chosen order; by date, newer documents come first.
   */
  lemma FilteredView(docs: seq<Document>, search: string, filterType: string, sortBy: SortBy)
    ensures var r := FilteredDocuments(docs, search, filterType, sortBy);
      && multiset(r) == multiset(Select(docs, search, filterType))
      && (forall d | d in r :: d in docs && MatchesSearch(d, search) && MatchesFilter(d, filterType))
      && (forall d | d in docs && MatchesSearch(d, search) && MatchesFilter(d, filterType) :: d in r)
      && (sortBy == ByDate ==> forall i | 0 < i < |r| :: r[i - 1].uploadDate >= r[i].uploadDate)
  {
    var s := Select(docs, search, filterType);
    var r := Sort(sortBy, s);
    forall d | d in r ensures d in s {
      assert d in multiset(r);
    }
    forall d | d in s ensures d in r {
      assert d in multiset(s);
    }
  }

  /** An empty search and the "all" filter show every document. */
  lemma ShowAll(docs: seq<Document>, sortBy: SortBy)
    ensures multiset(FilteredDocuments(docs, "", "all", sortBy)) == multiset(docs)
  {
    SelectAll(docs);
  }

  lemma {:induction false} SelectAll(docs: seq<Document>)
    ensures Select(docs, "", "all") == docs
  {
    if docs != [] {
      Text.StartsWithAppend(Text.Lower(docs[0].name), "");
      assert Text.Lower(docs[0].name) + "" == Text.Lower(docs[0].name);
      SelectAll(docs[1..]);
    }
  }
}
