/**
 * Intelligence extraction (app/services/extractor.py): post-processing of the
 * regular-expression matches (UPI suffix filter, phone normalisation,
 * de-duplication) and the merge with an external extractor's answer.
 *
 * What the patterns find in a text is an input (`findall` gives a `RegexMatches`); the
 * regular-expression engine itself is not modelled.
 */
module Extractor {
  import opened Wrappers
  import opened Schemas
  import opened Text
  import opened Collections
  import History

  /** The nineteen accepted UPI handle suffixes, each written with its leading '@'. */
  const UpiSuffixes: seq<string> := [
    "@ybl", "@upi", "@paytm", "@oksbi", "@okicici", "@okhdfcbank",
    "@axl", "@ibl", "@sbi", "@icici", "@hdfc", "@axis", "@kotak",
    "@freecharge", "@apl", "@pnb", "@boi", "@cbin", "@federal"]

  /** The candidate, lower-cased, ends with one of the listed suffixes. */
  predicate IsKnownUpi(candidate: string) {
    exists k :: 0 <= k < |UpiSuffixes| && EndsWith(Lower(candidate), UpiSuffixes[k])
  }

  /** Each listed suffix is '@' followed by a name without '@'. */
  lemma UpiSuffixShape()
    ensures forall k :: 0 <= k < |UpiSuffixes| ==>
      |UpiSuffixes[k]| >= 1 && UpiSuffixes[k][0] == '@' && '@' !in UpiSuffixes[k][1..]
  {
    assert forall k :: 0 <= k < |UpiSuffixes| ==> HandleSuffix(UpiSuffixes[k]);
    forall k | 0 <= k < |UpiSuffixes|
      ensures '@' !in UpiSuffixes[k][1..]
    {
      assert HandleSuffix(UpiSuffixes[k]);
    }
  }

  /** '@' followed by characters other than '@'. */
  predicate HandleSuffix(x: string) {
    |x| >= 1 && x[0] == '@' && forall i :: 1 <= i < |x| ==> x[i] != '@'
  }

  lemma LowerKeepsAt(s: string)
    ensures ('@' in Lower(s)) <==> ('@' in s)
  {
    if '@' in s {
      var i :| 0 <= i < |s| && s[i] == '@';
      assert Lower(s)[i] == '@';
    }
  }

  /** A string "x@d" with no other '@' ends with "@p" (p without '@') exactly when d is p. */
  lemma SuffixAfterAt(head: string, tail: string, suffix: string)
    requires '@' !in tail
    requires |suffix| >= 1 && suffix[0] == '@' && '@' !in suffix[1..]
    ensures EndsWith(head + "@" + tail, suffix) <==> suffix == "@" + tail
  {
    var s := head + "@" + tail;
    if EndsWith(s, suffix) {
      // The suffix starts with the only '@' of `s` that follows `head`, and has no other '@'.
      var k := |s| - |suffix|;
      assert forall i :: k <= i < |s| ==> s[i] == suffix[i - k];
      assert forall i :: 1 <= i < |suffix| ==> suffix[i] != '@';
      assert forall i :: |head| < i < |s| ==> s[i] != '@';
      assert s[|head|] == '@' && s[k] == '@';
      if k != |head| {
        assert false;
      }
      assert s[k..] == "@" + tail;
    }
  }

  /**
   * A candidate the UPI pattern produces has one '@'; it is kept exactly when the
   * lower-cased text after the '@' is one of the listed names.
   */
  lemma UpiKeptIffListedSuffix(local: string, domain: string)
    requires '@' !in local && '@' !in domain
    ensures IsKnownUpi(local + "@" + domain) <==> ("@" + Lower(domain)) in UpiSuffixes
  {
    UpiSuffixShape();
    LowerKeepsAt(domain);
    var c := local + "@" + domain;
    LowerAppend(local, "@" + domain);
    LowerAppend("@", domain);
    assert Lower("@") == "@";
    assert Lower(c) == Lower(local) + "@" + Lower(domain);
    forall k | 0 <= k < |UpiSuffixes|
      ensures EndsWith(Lower(c), UpiSuffixes[k]) <==> UpiSuffixes[k] == "@" + Lower(domain)
    {
      SuffixAfterAt(Lower(local), Lower(domain), UpiSuffixes[k]);
    }
  }

  /** The UPI comprehension: keeps the known candidates, in order, duplicates included. */
  function FilterKnownUpi(candidates: seq<string>): (r: seq<string>)
    ensures forall x :: x in r <==> x in candidates && IsKnownUpi(x)
    decreases |candidates|
  {
    if candidates == [] then []
    else
      var init := candidates[..|candidates| - 1];
      var last := candidates[|candidates| - 1];
      assert candidates == init + [last];
      FilterKnownUpi(init) + (if IsKnownUpi(last) then [last] else [])
  }

  /** `re.sub(r'[-\s]', '', phone)`: drops every hyphen and whitespace character. */
  function NormalisePhone(p: string): (r: string)
    ensures forall i :: 0 <= i < |r| ==> r[i] != '-' && r[i] !in Whitespace
    ensures |r| <= |p|
    ensures (forall i :: 0 <= i < |p| ==> p[i] != '-' && p[i] !in Whitespace) ==> r == p
    decreases |p|
  {
    if p == [] then []
    else (if p[0] == '-' || p[0] in Whitespace then [] else [p[0]]) + NormalisePhone(p[1..])
  }

  function NormaliseAll(ps: seq<string>): (r: seq<string>)
    ensures |r| == |ps| && forall i :: 0 <= i < |ps| ==> r[i] == NormalisePhone(ps[i])
  {
    seq(|ps|, i requires 0 <= i < |ps| => NormalisePhone(ps[i]))
  }

  /** What each pattern's `findall` returned, in match order. */
  datatype RegexMatches = RegexMatches(
    upiCandidates: seq<string>,
    bankAccounts: seq<string>,
    ifscCodes: seq<string>,
    urls: seq<string>,
    phones: seq<string>)

  /** The regex-only result; `list(set(...))` is taken in first-occurrence order. */
  function RegexIntelligence(m: RegexMatches): (r: Intelligence)
    ensures NoDuplicates(r.upiIds) && NoDuplicates(r.bankAccounts) && NoDuplicates(r.ifscCodes)
    ensures NoDuplicates(r.urls) && NoDuplicates(r.phones)
    ensures forall x :: x in r.upiIds <==> x in m.upiCandidates && IsKnownUpi(x)
    ensures forall x :: x in r.bankAccounts <==> x in m.bankAccounts
    ensures forall x :: x in r.ifscCodes <==> x in m.ifscCodes
    ensures forall x :: x in r.urls <==> x in m.urls
    ensures forall x :: x in r.phones <==> exists i :: 0 <= i < |m.phones| && x == NormalisePhone(m.phones[i])
    ensures forall x :: x in r.phones ==> '-' !in x && forall i :: 0 <= i < |x| ==> x[i] !in Whitespace
  {
    var phones := NormaliseAll(m.phones);
    assert forall x :: x in phones <==> exists i :: 0 <= i < |m.phones| && x == NormalisePhone(m.phones[i]) by {
      forall x | x in phones ensures exists i :: 0 <= i < |m.phones| && x == NormalisePhone(m.phones[i]) {
        var i :| 0 <= i < |phones| && phones[i] == x;
      }
    }
    Intelligence(
      Dedup(FilterKnownUpi(m.upiCandidates)),
      Dedup(m.bankAccounts),
      Dedup(m.urls),
      Dedup(phones),
      Dedup(m.ifscCodes))
  }

  /**
   * The matches `_regex_extract` collects from `text`: the IFSC pattern runs on
   * the upper-cased text, every other pattern on the text as given.
   */
  function PatternMatches(findall: string -> RegexMatches, text: string): RegexMatches {
    findall(text).(ifscCodes := findall(Upper(text)).ifscCodes)
  }

  /** `_regex_extract`, with the phone list built by a loop that skips values already seen. */
  method RegexExtraction(text: string, findall: string -> RegexMatches) returns (r: Intelligence)
    ensures r == RegexIntelligence(PatternMatches(findall, text))
  {
    var m := findall(text);
    var ifscCodes := findall(Upper(text)).ifscCodes;
    var upiIds := FilterKnownUpi(m.upiCandidates);
    var phones: seq<string> := [];
    for i := 0 to |m.phones|
      invariant phones == Dedup(NormaliseAll(m.phones[..i]))
    {
      var normalized := NormalisePhone(m.phones[i]);
      assert NormaliseAll(m.phones[..i + 1])[..i] == NormaliseAll(m.phones[..i]);
      if normalized !in phones {
        phones := phones + [normalized];
      }
    }
    assert m.phones[..|m.phones|] == m.phones;
    r := Intelligence(Dedup(upiIds), Dedup(m.bankAccounts), Dedup(m.urls), phones, Dedup(ifscCodes));
  }

  /** Phones keep first-occurrence order: the phones found in an earlier prefix of the matches come first. */
  lemma PhonesKeepFirstOccurrenceOrder(m: RegexMatches, k: nat)
    requires k <= |m.phones|
    ensures var early := RegexIntelligence(m.(phones := m.phones[..k])).phones;
      var all := RegexIntelligence(m).phones;
      |early| <= |all| && early == all[..|early|]
  {
    assert NormaliseAll(m.phones)[..k] == NormaliseAll(m.phones[..k]);
    DedupPrefixStable(NormaliseAll(m.phones), k);
  }

  lemma {:induction false} NormaliseAppend(a: string, b: string)
    ensures NormalisePhone(a + b) == NormalisePhone(a) + NormalisePhone(b)
    decreases |a|
  {
    if a != [] {
      assert (a + b)[1..] == a[1..] + b;
      NormaliseAppend(a[1..], b);
    } else {
      assert a + b == b;
    }
  }

  /** "98-76" and "98 76" normalise to the same number: the separator is dropped, the digits kept. */
  lemma PhoneNormalisationExample()
    ensures NormalisePhone("98-76") == "9876"
    ensures NormalisePhone("98 76") == "9876"
  {
    DigitsKept();
    var dash, space := "98-76", "98 76";
    assert dash[0] == '9' && dash[1..] == "8-76" && "8-76"[0] == '8' && "8-76"[1..] == "-76";
    assert space[0] == '9' && space[1..] == "8 76" && "8 76"[0] == '8' && "8 76"[1..] == " 76";
    assert "-76"[0] == '-' && "-76"[1..] == "76";
    assert " 76"[0] == ' ' && " 76"[1..] == "76";
  }

  lemma DigitsKept()
    ensures NormalisePhone("76") == "76"
  {
    assert "76"[1..] == "6" && "6"[1..] == [];
  }

  /** The two spellings give a single phone entry. */
  lemma PhoneDedupExample()
    ensures RegexIntelligence(RegexMatches([], [], [], [], ["98-76", "98 76"])).phones == ["9876"]
  {
    PhoneNormalisationExample();
    var ps := NormaliseAll(["98-76", "98 76"]);
    assert ps == ["9876", "9876"];
    assert ps[..1] == ["9876"] && ps[..1][..0] == [];
    assert Dedup(ps[..1]) == ["9876"];
  }

  lemma UpperCharIdempotent(c: char)
    ensures UpperChar(UpperChar(c)) == UpperChar(c)
  {
  }

  /** Any run of characters taken from an upper-cased text is upper-case. */
  lemma SliceOfUpperIsUpper(x: string, text: string)
    requires IsSlice(x, Upper(text))
    ensures IsUpperCase(x)
  {
    var i, j :| 0 <= i <= j <= |Upper(text)| && x == Upper(text)[i..j];
    forall p | 0 <= p < |x| ensures UpperChar(x[p]) == x[p] {
      assert x[p] == UpperChar(text[i + p]);
      UpperCharIdempotent(text[i + p]);
    }
  }

  /** IFSC codes matched inside an upper-cased text are upper-case once de-duplicated. */
  lemma IfscMatchesUpperCase(text: string, m: RegexMatches)
    requires forall k :: 0 <= k < |m.ifscCodes| ==> IsSlice(m.ifscCodes[k], Upper(text))
    ensures forall x :: x in RegexIntelligence(m).ifscCodes ==> IsUpperCase(x)
  {
    forall x | x in RegexIntelligence(m).ifscCodes
      ensures IsUpperCase(x)
    {
      var k :| 0 <= k < |m.ifscCodes| && m.ifscCodes[k] == x;
      SliceOfUpperIsUpper(x, text);
    }
  }

  /**
   * The IFSC pattern runs on the upper-cased conversation text. As long as the
   * pattern engine returns pieces of the text it searched, every IFSC code
   * from the pattern pass is upper-case, and it stays in the merged result
   * whatever the external extractor answers.
   */
  lemma IfscCodesUpperCase(
    history: seq<HistoryItem>, findall: string -> RegexMatches, external: string -> Result<ExtractorReply>)
    requires var u := Upper(ExtractionText(history));
      forall k :: 0 <= k < |findall(u).ifscCodes| ==> IsSlice(findall(u).ifscCodes[k], u)
    ensures var regex := RegexIntelligence(PatternMatches(findall, ExtractionText(history)));
      forall x :: x in regex.ifscCodes ==> IsUpperCase(x) && x in ExtractSpec(history, findall, external).ifscCodes
  {
    var text := ExtractionText(history);
    IfscMatchesUpperCase(text, PatternMatches(findall, text));
    RegexResultKept(RegexIntelligence(PatternMatches(findall, text)), external(History.Render(history)));
  }

  /** The text the patterns run on: the contents joined with newlines, a missing content read as "". */
  function ExtractionText(history: seq<HistoryItem>): string {
    JoinWith(seq(|history|, i requires 0 <= i < |history| => history[i].content.GetOr("")), '\n')
  }

  /** Every turn's content is part of the text the patterns run on. */
  lemma ExtractionTextContainsEachTurn(history: seq<HistoryItem>, k: nat)
    requires k < |history|
    ensures Contains(ExtractionText(history), history[k].content.GetOr(""))
  {
    var contents := seq(|history|, i requires 0 <= i < |history| => history[i].content.GetOr(""));
    JoinContainsEach(contents, '\n', k);
  }

  /** The external extractor's answer; a missing category reads as empty. */
  datatype ExtractorReply = ExtractorReply(
    upiIds: Option<seq<string>>,
    bankAccounts: Option<seq<string>>,
    ifscCodes: Option<seq<string>>,
    urls: Option<seq<string>>,
    phones: Option<seq<string>>)

  /** `r` holds, once each, exactly the entries of `a` and of `b`. */
  ghost predicate IsUnionOf(r: seq<string>, a: seq<string>, b: seq<string>) {
    NoDuplicates(r) && forall x :: x in r <==> x in a || x in b
  }

  function Union(a: seq<string>, b: seq<string>): (r: seq<string>)
    ensures IsUnionOf(r, a, b)
  {
    Dedup(a + b)
  }

  /** The merge: category-wise union on success, the regex result unchanged on failure. */
  function Merge(regex: Intelligence, reply: Result<ExtractorReply>): (r: Intelligence)
    ensures reply.Err? ==> r == regex
    ensures reply.Ok? ==>
      && IsUnionOf(r.upiIds, regex.upiIds, reply.value.upiIds.GetOr([]))
      && IsUnionOf(r.bankAccounts, regex.bankAccounts, reply.value.bankAccounts.GetOr([]))
      && IsUnionOf(r.ifscCodes, regex.ifscCodes, reply.value.ifscCodes.GetOr([]))
      && IsUnionOf(r.urls, regex.urls, reply.value.urls.GetOr([]))
      && IsUnionOf(r.phones, regex.phones, reply.value.phones.GetOr([]))
  {
    match reply
    case Err => regex
    case Ok(ext) =>
      Intelligence(
        Union(regex.upiIds, ext.upiIds.GetOr([])),
        Union(regex.bankAccounts, ext.bankAccounts.GetOr([])),
        Union(regex.urls, ext.urls.GetOr([])),
        Union(regex.phones, ext.phones.GetOr([])),
        Union(regex.ifscCodes, ext.ifscCodes.GetOr([])))
  }

  /** Nothing the patterns found is lost, whichever way the external call goes. */
  lemma RegexResultKept(regex: Intelligence, reply: Result<ExtractorReply>)
    ensures var r := Merge(regex, reply);
      && (forall x :: x in regex.upiIds ==> x in r.upiIds)
      && (forall x :: x in regex.bankAccounts ==> x in r.bankAccounts)
      && (forall x :: x in regex.ifscCodes ==> x in r.ifscCodes)
      && (forall x :: x in regex.urls ==> x in r.urls)
      && (forall x :: x in regex.phones ==> x in r.phones)
  {
  }

  function ExtractSpec(
    history: seq<HistoryItem>,
    findall: string -> RegexMatches,
    external: string -> Result<ExtractorReply>): Intelligence
  {
    Merge(RegexIntelligence(PatternMatches(findall, ExtractionText(history))), external(History.Render(history)))
  }

  /** `extract`: regex pass over the joined text, then the transcript loop and the external call. */
  method Extract(
    history: seq<HistoryItem>,
    findall: string -> RegexMatches,
    external: string -> Result<ExtractorReply>)
    returns (r: Intelligence)
    ensures r == ExtractSpec(history, findall, external)
  {
    var fullText := ExtractionText(history);
    var regexIntel := RegexExtraction(fullText, findall);
    var conversationText := History.BuildTranscript(history);
    r := Merge(regexIntel, external(conversationText));
  }
}
