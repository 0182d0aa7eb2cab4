/**
 * `LiveFPLUtils._parse_prices_html`: scrape (id, pct_now, pct_tonight)
 * records out of the prices page.
 *
 * The regular expressions are modelled as scanners over the text:
 *  - the primary pattern `<div[^>]*data-id\s*=\s*['"]?(?P<id>\d+)['"]?[^>]*>`
 *    (IGNORECASE) matches from a `<div` to the first `>` after it, provided
 *    that span holds a `data-id=` attribute; greedy `[^>]*` makes the id the
 *    one of the LAST such attribute in the tag;
 *  - `data-now\s*=\s*["']?([^"'>\s]+)["']?` and its `data-tonight` twin are
 *    case-sensitive searches for the leftmost match;
 *  - the fallback `data-id\s*=\s*["']?(\d+)["']?` is case-sensitive.
 */
module PriceParser {
  import opened Wrappers
  import opened PyJson

  /** One scraped record; the percentages are None when absent or not numeric. */
  datatype PriceRecord = PriceRecord(id: nat, pctNow: Option<real>, pctTonight: Option<real>)

  /** `\s` in a `str` pattern. */
  predicate IsSpace(c: char) {
    IsPySpace(c)
  }

  predicate IsQuote(c: char) {
    c == '"' || c == '\''
  }

  /** `[^"'>\s]`. */
  predicate IsValueChar(c: char) {
    !IsQuote(c) && c != '>' && !IsSpace(c)
  }

  predicate NotGt(c: char) {
    c != '>'
  }

  /** The end of the longest run of characters satisfying `p` that starts at `k`. */
  function Span(s: string, k: nat, p: char -> bool): (e: nat)
    requires k <= |s|
    ensures k <= e <= |s|
    ensures forall i :: k <= i < e ==> p(s[i])
    ensures e < |s| ==> !p(s[e])
    decreases |s| - k
  {
    if k == |s| || !p(s[k]) then k else Span(s, k + 1, p)
  }

  /** `word` occurs at `k`, letters compared case-insensitively when `ci` holds. */
  predicate LiteralAt(s: string, k: nat, word: string, ci: bool) {
    && k + |word| <= |s|
    && forall j :: 0 <= j < |word| ==>
         if ci then LowerChar(s[k + j]) == LowerChar(word[j]) else s[k + j] == word[j]
  }

  /** A `data-id` attribute found at some position: the id and the end of the match. */
  datatype IdHit = IdHit(id: nat, end: nat)

  /** `data-id\s*=\s*['"]?(\d+)['"]?` matched at exactly `k`. */
  function IdAttrAt(s: string, k: nat, ci: bool): (r: Option<IdHit>)
    ensures r.Some? ==> k + 7 < r.value.end <= |s|
  {
    if !LiteralAt(s, k, "data-id", ci) then None
    else
      var a := Span(s, k + 7, IsSpace);
      if a == |s| || s[a] != '=' then None
      else
        var b := Span(s, a + 1, IsSpace);
        var c := if b < |s| && IsQuote(s[b]) then b + 1 else b;
        var d := Span(s, c, IsDigit);
        if d == c then None
        else
          var e := if d < |s| && IsQuote(s[d]) then d + 1 else d;
          var digits := s[c..d];
          assert forall j :: 0 <= j < |digits| ==> digits[j] == s[c + j] && IsDigit(s[c + j]);
          Some(IdHit(DigitsValue(digits), e))
  }

  /** The value captured by `name\s*=\s*["']?([^"'>\s]+)["']?` matched at exactly `k`. */
  function AttrValueAt(s: string, k: nat, name: string): (r: Option<string>)
    ensures r.Some? ==> r.value != [] && forall i :: 0 <= i < |r.value| ==> IsValueChar(r.value[i])
  {
    if !LiteralAt(s, k, name, false) then None
    else
      var a := Span(s, k + |name|, IsSpace);
      if a == |s| || s[a] != '=' then None
      else
        var b := Span(s, a + 1, IsSpace);
        var c := if b < |s| && IsQuote(s[b]) then b + 1 else b;
        var d := Span(s, c, IsValueChar);
        if d == c then None else Some(s[c..d])
  }

  /** The first `Some` among `f(k)`, ..., `f(n - 1)`. */
  function FirstSome<T>(n: nat, k: nat, f: nat -> Option<T>): Option<T>
    decreases n - k
  {
    if k >= n then None
    else if f(k).Some? then f(k)
    else FirstSome(n, k + 1, f)
  }

  /** `re.search(name + ...)` over `s[k..]`: the leftmost match. */
  function FindAttr(s: string, name: string, k: nat): Option<string> {
    FirstSome(|s|, k, j => AttrValueAt(s, j, name))
  }

  lemma {:induction false} FirstSomeIsFirst<T>(n: nat, k: nat, f: nat -> Option<T>)
    ensures FirstSome(n, k, f).Some? ==>
      exists j :: k <= j < n && f(j) == FirstSome(n, k, f) && forall i :: k <= i < j ==> f(i).None?
    ensures FirstSome(n, k, f).None? ==> forall j :: k <= j < n ==> f(j).None?
    decreases n - k
  {
    if k < n && f(k).None? {
      FirstSomeIsFirst(n, k + 1, f);
      if FirstSome(n, k, f).Some? {
        var j :| k + 1 <= j < n && f(j) == FirstSome(n, k, f) && forall i :: k + 1 <= i < j ==> f(i).None?;
        assert forall i :: k <= i < j ==> f(i).None?;
      }
    }
  }

  /**
   * `re.search` returns the leftmost match: a value found at `j` has no match
   * before it, and no value means no position matches.
   */
  lemma FindAttrLeftmost(s: string, name: string, k: nat)
    ensures FindAttr(s, name, k).Some? ==>
      exists j :: k <= j < |s| && AttrValueAt(s, j, name) == FindAttr(s, name, k) &&
        forall i :: k <= i < j ==> AttrValueAt(s, i, name).None?
    ensures FindAttr(s, name, k).None? ==> forall j :: k <= j < |s| ==> AttrValueAt(s, j, name).None?
  {
    var f := j => AttrValueAt(s, j, name);
    FirstSomeIsFirst(|s|, k, f);
    assert forall j :: f(j) == AttrValueAt(s, j, name);
  }

  /**
   * The attribute searches are case-sensitive: where `name` never occurs
   * verbatim (say only as `DATA-NOW`), the field is None.
   */
  lemma CaseSensitiveAttr(s: string, name: string)
    requires forall k :: 0 <= k < |s| ==> !LiteralAt(s, k, name, false)
    ensures FindAttr(s, name, 0).None?
  {
    FindAttrLeftmost(s, name, 0);
  }

  function Pow10(n: nat): (r: nat)
    ensures r >= 1
  {
    if n == 0 then 1 else 10 * Pow10(n - 1)
  }

  /** `float(v)` for unsigned decimals: digits, optionally a point and more digits, at least one digit. */
  function ParseUnsigned(v: string): Option<real> {
    var dot := Span(v, 0, IsDigit);
    if dot == |v| then
      if dot == 0 then None else Some(DigitsValue(v) as real)
    else if v[dot] != '.' then None
    else
      var frac := v[dot + 1..];
      if !AllDigits(frac) || (dot == 0 && frac == []) then None
      else Some(DigitsValue(v[..dot]) as real + DigitsValue(frac) as real / Pow10(|frac|) as real)
  }

  /** `float(v)` for an optionally signed decimal; None where Python raises ValueError. */
  function ParseFloat(v: string): Option<real> {
    if v != [] && (v[0] == '-' || v[0] == '+') then
      match ParseUnsigned(v[1..])
      case Some(x) => Some(if v[0] == '-' then -x else x)
      case None => None
    else ParseUnsigned(v)
  }

  /** `float(str(i)) == i`: every rendered int coerces back to itself. */
  lemma ParseFloatOfInt(i: int)
    ensures ParseFloat(IntToString(i)) == Some(i as real)
  {
    if i < 0 {
      NatToStringDigits(-i);
      assert IntToString(i)[1..] == NatToString(-i);
    } else {
      NatToStringDigits(i);
    }
  }

  /** An unsigned decimal holds only digits and the point. */
  lemma ParseUnsignedAlphabet(v: string)
    ensures ParseUnsigned(v).Some? ==> v != [] && forall k :: 0 <= k < |v| ==> IsDigit(v[k]) || v[k] == '.'
  {
    var dot := Span(v, 0, IsDigit);
    if ParseUnsigned(v).Some? && dot < |v| {
      var frac := v[dot + 1..];
      assert forall k :: dot < k < |v| ==> v[k] == frac[k - dot - 1];
    }
  }

  /**
   * Only an optional sign followed by digits and a point coerces: a value
   * holding any other character (a placeholder such as "N/A", a "%" sign,
   * surrounding text) coerces to None.
   */
  lemma ParseFloatAlphabet(v: string)
    ensures ParseFloat(v).Some? ==>
      && v != []
      && (IsDigit(v[0]) || v[0] in ".+-")
      && forall k :: 0 < k < |v| ==> IsDigit(v[k]) || v[k] == '.'
  {
    ParseUnsignedAlphabet(v);
    if v != [] && (v[0] == '-' || v[0] == '+') {
      ParseUnsignedAlphabet(v[1..]);
      assert forall k :: 0 < k < |v| ==> v[k] == v[1..][k - 1];
    }
  }

  /** A leading '-' negates and a leading '+' changes nothing; a second sign never coerces. */
  lemma ParseFloatSign(t: string)
    ensures t != [] && (t[0] == '-' || t[0] == '+') ==> ParseFloat("-" + t).None? && ParseFloat("+" + t).None?
    ensures t == [] || (t[0] != '-' && t[0] != '+') ==>
      && ParseFloat("+" + t) == ParseFloat(t)
      && ParseFloat("-" + t) == if ParseFloat(t).Some? then Some(-ParseFloat(t).value) else None
  {
    assert ("-" + t)[1..] == t && ("+" + t)[1..] == t;
    if t != [] && (t[0] == '-' || t[0] == '+') {
      ParseUnsignedAlphabet(t);
    }
  }

  /** The `try: float(...) except: None` coercion of an optional match. */
  function Coerce(v: Option<string>): Option<real> {
    match v
    case None => None
    case Some(s) => ParseFloat(s)
  }

  /** The record built for an id from the text searched for its attributes. */
  function RecordFor(id: nat, text: string): PriceRecord {
    PriceRecord(id, Coerce(FindAttr(text, "data-now", 0)), Coerce(FindAttr(text, "data-tonight", 0)))
  }

  /** A primary match: the tag `s[start..end]` and the id it carries. */
  datatype TagMatch = TagMatch(id: nat, start: nat, end: nat)

  /** The last `Some` among `f(lo)`, ..., `f(k - 1)`. */
  function LastSome<T>(lo: nat, k: nat, f: nat -> Option<T>): Option<T>
    decreases k
  {
    if k <= lo then None
    else if f(k - 1).Some? then f(k - 1)
    else LastSome(lo, k - 1, f)
  }

  lemma {:induction false} LastSomeIsLast<T>(lo: nat, k: nat, f: nat -> Option<T>)
    ensures LastSome(lo, k, f).Some? ==>
      exists j :: lo <= j < k && f(j) == LastSome(lo, k, f) && forall i :: j < i < k ==> f(i).None?
    ensures LastSome(lo, k, f).None? ==> forall j :: lo <= j < k ==> f(j).None?
    decreases k
  {
    if k > lo && f(k - 1).None? {
      LastSomeIsLast(lo, k - 1, f);
      if LastSome(lo, k, f).Some? {
        var j :| lo <= j < k - 1 && f(j) == LastSome(lo, k, f) && forall i :: j < i < k - 1 ==> f(i).None?;
        assert forall i :: j < i < k ==> f(i).None?;
      }
    }
  }

  /** The last `data-id=` attribute (any case) starting in `[lo, k)`. */
  function LastIdIn(s: string, lo: nat, k: nat): Option<IdHit> {
    LastSome(lo, k, j => IdAttrAt(s, j, true))
  }

  /**
   * Greedy `[^>]*` before `data-id` makes the captured id the one of the
   * last `data-id` attribute starting in `[lo, k)`.
   */
  lemma LastIdInIsLast(s: string, lo: nat, k: nat)
    ensures LastIdIn(s, lo, k).Some? ==>
      exists j :: lo <= j < k && IdAttrAt(s, j, true) == LastIdIn(s, lo, k) &&
        forall i :: j < i < k ==> IdAttrAt(s, i, true).None?
    ensures LastIdIn(s, lo, k).None? ==> forall j :: lo <= j < k ==> IdAttrAt(s, j, true).None?
  {
    var f := j => IdAttrAt(s, j, true);
    LastSomeIsLast(lo, k, f);
    assert forall j :: f(j) == IdAttrAt(s, j, true);
  }

  /** `s[m.start..m.end]` is a whole tag: `<div` (any case) up to and including the first `>`. */
  predicate IsTag(s: string, m: TagMatch) {
    && m.start + 4 < m.end <= |s|
    && LiteralAt(s, m.start, "<div", true)
    && s[m.end - 1] == '>'
    && forall k :: m.start + 4 <= k < m.end - 1 ==> s[k] != '>'
  }

  /** The primary pattern matched at exactly `i`. */
  function DivTagAt(s: string, i: nat): (r: Option<TagMatch>)
    ensures r.Some? ==> r.value.start == i && IsTag(s, r.value)
  {
    if !LiteralAt(s, i, "<div", true) then None
    else
      var q := Span(s, i + 4, NotGt);
      if q == |s| then None
      else
        match LastIdIn(s, i + 4, q)
        case Some(h) =>
          assert forall k :: i + 4 <= k < q ==> NotGt(s[k]);
          Some(TagMatch(h.id, i, q + 1))
        case None => None
  }

  /**
   * `re.finditer` of the primary pattern from `i`: the matched tags, in order
   * and not overlapping.
   */
  function DivMatches(s: string, i: nat): (ms: seq<TagMatch>)
    requires i <= |s|
    ensures forall k :: 0 <= k < |ms| ==> i <= ms[k].start && IsTag(s, ms[k])
    ensures forall k :: 0 <= k < |ms| - 1 ==> ms[k].end <= ms[k + 1].start
    decreases |s| - i
  {
    if i == |s| then []
    else
      match DivTagAt(s, i)
      case Some(m) => [m] + DivMatches(s, m.end)
      case None => DivMatches(s, i + 1)
  }

  /** A fallback match: the id and where its `data-id` starts. */
  datatype IdAt = IdAt(id: nat, start: nat)

  /** `re.finditer` of the case-sensitive fallback pattern from `i`, in order. */
  function FallbackMatches(s: string, i: nat): (ms: seq<IdAt>)
    requires i <= |s|
    ensures forall k :: 0 <= k < |ms| ==> i <= ms[k].start < |s| && LiteralAt(s, ms[k].start, "data-id", false)
    ensures forall k :: 0 <= k < |ms| - 1 ==> ms[k].start < ms[k + 1].start
    decreases |s| - i
  {
    if i == |s| then []
    else
      match IdAttrAt(s, i, false)
      case Some(h) => [IdAt(h.id, i)] + FallbackMatches(s, h.end)
      case None => FallbackMatches(s, i + 1)
  }

  /** `html[start:start+300]`. */
  function Window(s: string, start: nat): string
    requires start <= |s|
  {
    if start + 300 <= |s| then s[start..start + 300] else s[start..]
  }

  /** The records of the primary scan: attributes are read from the tag text only. */
  function PrimaryRecords(html: string): seq<PriceRecord> {
    var ms := DivMatches(html, 0);
    seq(|ms|, k requires 0 <= k < |ms| => RecordFor(ms[k].id, html[ms[k].start..ms[k].end]))
  }

  /** The records of the fallback scan: attributes are read from a 300-character window. */
  function FallbackRecords(html: string): seq<PriceRecord> {
    var ms := FallbackMatches(html, 0);
    seq(|ms|, k requires 0 <= k < |ms| => RecordFor(ms[k].id, Window(html, ms[k].start)))
  }

  /** The fallback runs only when the primary scan found nothing. */
  function Candidates(html: string): seq<PriceRecord> {
    if PrimaryRecords(html) != [] then PrimaryRecords(html) else FallbackRecords(html)
  }

  function Ids(ps: seq<PriceRecord>): set<nat> {
    set k | 0 <= k < |ps| :: ps[k].id
  }

  /** First-wins deduplication by id, in first-seen order. */
  function Dedup(ps: seq<PriceRecord>): seq<PriceRecord>
    decreases |ps|
  {
    if ps == [] then []
    else
      var d := Dedup(ps[..|ps| - 1]);
      if ps[|ps| - 1].id in Ids(d) then d else d + [ps[|ps| - 1]]
  }

  /** The index of the first record in `ps` with the given id. */
  function FirstIndex(ps: seq<PriceRecord>, id: nat): (i: nat)
    requires id in Ids(ps)
    ensures i < |ps| && ps[i].id == id
    ensures forall j :: 0 <= j < i ==> ps[j].id != id
    decreases |ps|
  {
    var init := ps[..|ps| - 1];
    if id in Ids(init) then
      assert forall j :: 0 <= j < |init| ==> init[j] == ps[j];
      FirstIndex(init, id)
    else
      assert forall j :: 0 <= j < |init| ==> init[j] == ps[j];
      |ps| - 1
  }

  lemma IdsSnoc(ps: seq<PriceRecord>, p: PriceRecord)
    ensures Ids(ps + [p]) == Ids(ps) + {p.id}
  {
    var q := ps + [p];
    assert forall k :: 0 <= k < |ps| ==> q[k] == ps[k];
    assert q[|ps|] == p;
  }

  /** Appending a record does not move the first occurrence of an id already present. */
  lemma FirstIndexSnoc(ps: seq<PriceRecord>, p: PriceRecord, id: nat)
    requires id in Ids(ps)
    ensures id in Ids(ps + [p]) && FirstIndex(ps + [p], id) == FirstIndex(ps, id)
  {
    IdsSnoc(ps, p);
    assert (ps + [p])[..|ps|] == ps;
  }

  /**
   * Deduplication keeps exactly one record per id seen, that record is the
   * first one with its id, and the records come in the order their ids were
   * first seen.
   */
  lemma {:induction false} DedupFirstWins(ps: seq<PriceRecord>)
    ensures var d := Dedup(ps);
      && Ids(d) == Ids(ps)
      && (forall k :: 0 <= k < |d| ==> d[k].id in Ids(ps) && d[k] == ps[FirstIndex(ps, d[k].id)])
      && (forall a, b :: 0 <= a < b < |d| ==> FirstIndex(ps, d[a].id) < FirstIndex(ps, d[b].id))
    decreases |ps|
  {
    if ps != [] {
      var init := ps[..|ps| - 1];
      var p := ps[|ps| - 1];
      assert ps == init + [p];
      DedupFirstWins(init);
      IdsSnoc(init, p);
      var d0 := Dedup(init);
      forall id | id in Ids(init)
        ensures FirstIndex(ps, id) == FirstIndex(init, id)
      {
        FirstIndexSnoc(init, p, id);
      }
      assert forall j :: 0 <= j < |init| ==> init[j] == ps[j];
      if p.id !in Ids(d0) {
        assert FirstIndex(ps, p.id) == |ps| - 1;
        IdsSnoc(d0, p);
        var d := d0 + [p];
        assert forall k :: 0 <= k < |d0| ==> d[k] == d0[k];
      }
    }
  }

  /** The parser's output never holds two records with the same id. */
  lemma DedupUniqueIds(ps: seq<PriceRecord>)
    ensures forall a, b :: 0 <= a < b < |Dedup(ps)| ==> Dedup(ps)[a].id != Dedup(ps)[b].id
  {
    DedupFirstWins(ps);
  }

  /** The primary `finditer` loop: one record per matched tag, read from the tag text. */
  method ScanPrimary(html: string) returns (found: seq<PriceRecord>)
    ensures found == PrimaryRecords(html)
  {
    found := [];
    var tags := DivMatches(html, 0);
    var i := 0;
    while i < |tags|
      invariant 0 <= i <= |tags|
      invariant found == PrimaryRecords(html)[..i]
    {
      var m := tags[i];
      found := found + [RecordFor(m.id, html[m.start..m.end])];
      i := i + 1;
    }
  }

  /** The fallback `finditer` loop: one record per `data-id`, read from a 300-character window. */
  method ScanFallback(html: string) returns (found: seq<PriceRecord>)
    ensures found == FallbackRecords(html)
  {
    found := [];
    var hits := FallbackMatches(html, 0);
    var j := 0;
    while j < |hits|
      invariant 0 <= j <= |hits|
      invariant found == FallbackRecords(html)[..j]
    {
      var h := hits[j];
      found := found + [RecordFor(h.id, Window(html, h.start))];
      j := j + 1;
    }
  }

  /**
   * The `unique_players` loop: a record is stored only under an id not yet
   * seen; `deduped` holds the dict's values in insertion order.
   */
  method DedupById(found: seq<PriceRecord>) returns (players: seq<PriceRecord>)
    ensures players == Dedup(found)
  {
    var unique: map<nat, PriceRecord> := map[];
    var deduped: seq<PriceRecord> := [];
    var k := 0;
    while k < |found|
      invariant 0 <= k <= |found|
      invariant deduped == Dedup(found[..k])
      invariant unique.Keys == Ids(deduped)
    {
      var p := found[k];
      assert found[..k + 1] == found[..k] + [p];
      if p.id !in unique {
        IdsSnoc(deduped, p);
        unique := unique[p.id := p];
        deduped := deduped + [p];
      }
      k := k + 1;
    }
    assert found[..k] == found;
    players := deduped;
  }

  /**
   * `_parse_prices_html`: the primary scan, the fallback scan when the
   * primary found nothing, then first-wins deduplication.
   */
  method ParsePricesHtml(html: string) returns (players: seq<PriceRecord>)
    ensures players == Dedup(Candidates(html))
  {
    var found := ScanPrimary(html);
    if found == [] {
      found := ScanFallback(html);
    }
    players := DedupById(found);
  }
}
