/**
 * String vocabulary shared by the services: substring occurrence (Python's
 * `in` and `str.split`), decimal digits (`str(n)` and `int(digits)`), and the
 * regular-expression searches `prefix(\d+)` used to pull a room id out of a
 * URL. Only ASCII digits are modelled.
 */
module Text {
  import opened Common

  /** pat occurs in s starting at position i. */
  predicate OccursAt(s: string, pat: string, i: int) {
    0 <= i && i + |pat| <= |s| && s[i..i + |pat|] == pat
  }

  /** Python's `pat in s`. */
  predicate Contains(s: string, pat: string) {
    exists i :: 0 <= i <= |s| - |pat| && OccursAt(s, pat, i)
  }

  /** The last position at or below hi where pat occurs, or -1 when there is none. */
  function LastOccurrence(s: string, pat: string, hi: int): (r: int)
    decreases if hi < 0 then 0 else hi + 1
    ensures r == -1 || (0 <= r <= hi && OccursAt(s, pat, r))
    ensures forall j :: r < j <= hi ==> !OccursAt(s, pat, j)
  {
    if hi < 0 then -1
    else if OccursAt(s, pat, hi) then hi
    else LastOccurrence(s, pat, hi - 1)
  }

  predicate IsDigit(c: char) {
    '0' <= c <= '9'
  }

  predicate AllDigits(s: string) {
    forall i :: 0 <= i < |s| ==> IsDigit(s[i])
  }

  function DigitChar(d: nat): (c: char)
    requires d < 10
    ensures IsDigit(c) && c as int - '0' as int == d
  {
    ('0' as int + d) as char
  }

  /** str(n) for a natural number: its decimal digits, most significant first. */
  function NatToString(n: nat): (r: string)
    ensures |r| >= 1 && AllDigits(r)
  {
    if n < 10 then [DigitChar(n)] else NatToString(n / 10) + [DigitChar(n % 10)]
  }

  /** str(i) for any integer. */
  function IntToString(i: int): string {
    if i < 0 then "-" + NatToString(-i) else NatToString(i)
  }

  /** int(s) for a string of ASCII digits (leading zeros allowed). */
  function DigitsValue(s: string): nat
    requires AllDigits(s)
  {
    if s == [] then 0 else 10 * DigitsValue(s[..|s| - 1]) + (s[|s| - 1] as int - '0' as int)
  }

  /** Reading back the decimal digits of n gives n. */
  lemma {:induction false} DigitsRoundTrip(n: nat)
    ensures DigitsValue(NatToString(n)) == n
  {
    if n >= 10 {
      DigitsRoundTrip(n / 10);
      var s := NatToString(n);
      assert s[..|s| - 1] == NatToString(n / 10);
    }
  }

  /** The longest run of digits at the start of s, as `\d+` matches greedily. */
  function LeadingDigits(s: string): (r: string)
    ensures AllDigits(r) && r <= s
    ensures |r| < |s| ==> !IsDigit(s[|r|])
  {
    if s == [] || !IsDigit(s[0]) then [] else [s[0]] + LeadingDigits(s[1..])
  }

  lemma {:induction false} LeadingDigitsAll(s: string)
    requires AllDigits(s)
    ensures LeadingDigits(s) == s
  {
    if s != [] {
      LeadingDigitsAll(s[1..]);
    }
  }

  /** `prefix\d` matches at position i of s. */
  predicate DigitsFollow(s: string, prefix: string, i: int) {
    OccursAt(s, prefix, i) && i + |prefix| < |s| && IsDigit(s[i + |prefix|])
  }

  /** The leftmost position at or after `from` where `prefix\d` matches, as re.search finds it. */
  function SearchFrom(s: string, prefix: string, from: nat): (r: Option<nat>)
    decreases |s| - from
    ensures r.Some? ==> from <= r.value && DigitsFollow(s, prefix, r.value) &&
                        forall j :: from <= j < r.value ==> !DigitsFollow(s, prefix, j)
    ensures r.None? ==> forall j :: from <= j ==> !DigitsFollow(s, prefix, j)
  {
    if from >= |s| then None
    else if DigitsFollow(s, prefix, from) then Some(from)
    else SearchFrom(s, prefix, from + 1)
  }

  /** re.search(prefix + r'(\d+)', s) and int(group(1)), or None without a match. */
  function SearchNumber(s: string, prefix: string): (r: Option<nat>)
    ensures r.None? <==> forall j :: !DigitsFollow(s, prefix, j)
  {
    match SearchFrom(s, prefix, 0)
    case None => None
    case Some(i) =>
      assert DigitsFollow(s, prefix, i);
      Some(DigitsValue(LeadingDigits(s[i + |prefix|..])))
  }

  /** The path of a room page on the osu! site. */
  const RoomsPath: string := "osu.ppy.sh/multiplayer/rooms/"

  /**
   * extract_room_id: the four URL shapes are tried in order and the first
   * that matches gives the id; an empty URL has none.
   */
  function ExtractRoomId(url: string): (r: Option<nat>)
    ensures url == "" ==> r.None?
  {
    if url == "" then None
    else
      var a := SearchNumber(url, RoomsPath);
      if a.Some? then a
      else
        var b := SearchNumber(url, "osu.ppy.sh/mp/");
        if b.Some? then b
        else
          var c := SearchNumber(url, "multiplayer/rooms/");
          if c.Some? then c else SearchNumber(url, "/rooms/")
  }

  /** The number found is the one after the leftmost match. */
  lemma SearchNumberAt(s: string, prefix: string, i: nat)
    requires DigitsFollow(s, prefix, i)
    requires forall j :: 0 <= j < i ==> !DigitsFollow(s, prefix, j)
    ensures SearchNumber(s, prefix) == Some(DigitsValue(LeadingDigits(s[i + |prefix|..])))
  {
    var found := SearchFrom(s, prefix, 0);
    assert found == Some(i);
  }

  lemma OccurrenceStartsWith(s: string, pat: string)
    requires |pat| > 0
    ensures forall i :: OccursAt(s, pat, i) ==> s[i] == pat[0]
  {
    forall i | OccursAt(s, pat, i)
      ensures s[i] == pat[0]
    {
      assert s[i] == s[i..i + |pat|][0];
    }
  }

  /** The canonical room URL yields the room number it was built from. */
  lemma RoomUrlRoundTrip(n: nat)
    ensures ExtractRoomId("https://" + RoomsPath + NatToString(n)) == Some(n)
  {
    var scheme := "https://";
    forall j | 0 <= j < |scheme|
      ensures scheme[j] != RoomsPath[0]
    {
    }
    NumberAfter(scheme, RoomsPath, n);
  }

  /** A number written right after the first occurrence of pat is the one found. */
  lemma NumberAfter(head: string, pat: string, n: nat)
    requires pat != [] && forall j :: 0 <= j < |head| ==> head[j] != pat[0]
    ensures SearchNumber(head + pat + NatToString(n), pat) == Some(n)
  {
    var digits := NatToString(n);
    var url := head + pat + digits;
    var at := |head|;
    assert url[at..at + |pat|] == pat;
    assert DigitsFollow(url, pat, at);
    forall j | 0 <= j < at
      ensures url[j] != pat[0]
    {
      assert url[j] == head[j];
    }
    OccurrenceStartsWith(url, pat);
    SearchNumberAt(url, pat, at);
    assert url[at + |pat|..] == digits;
    LeadingDigitsAll(digits);
    DigitsRoundTrip(n);
  }

  /** The ASCII characters Python's str.isspace() accepts. */
  predicate IsSpace(c: char) {
    c == ' ' || '\t' <= c <= '\r' || '\U{1c}' <= c <= '\U{1f}'
  }

  /** The number of whitespace characters at the start of s. */
  function SpanStart(s: string): (i: nat)
    ensures i <= |s| && (forall j :: 0 <= j < i ==> IsSpace(s[j]))
    ensures i < |s| ==> !IsSpace(s[i])
  {
    if s == [] || !IsSpace(s[0]) then 0 else 1 + SpanStart(s[1..])
  }

  /** The length of s without its trailing whitespace. */
  function SpanEnd(s: string): (k: nat)
    ensures k <= |s| && (forall j :: k <= j < |s| ==> IsSpace(s[j]))
    ensures k > 0 ==> !IsSpace(s[k - 1])
  {
    if s == [] || !IsSpace(s[|s| - 1]) then |s| else SpanEnd(s[..|s| - 1])
  }

  /** str.strip(): s without leading and trailing whitespace. */
  function Strip(s: string): (r: string)
    ensures r == [] <==> forall j :: 0 <= j < |s| ==> IsSpace(s[j])
    ensures r != [] ==> !IsSpace(r[0]) && !IsSpace(r[|r| - 1])
  {
    var i := SpanStart(s);
    if i == |s| then [] else s[i..SpanEnd(s)]
  }

  /** Stripping removes exactly the whitespace padding around a word. */
  lemma StripPadding(a: string, w: string, b: string)
    requires forall j :: 0 <= j < |a| ==> IsSpace(a[j])
    requires forall j :: 0 <= j < |b| ==> IsSpace(b[j])
    requires w != [] && !IsSpace(w[0]) && !IsSpace(w[|w| - 1])
    ensures Strip(a + w + b) == w
  {
    var s := a + w + b;
    SpanStartAt(s, |a|);
    SpanEndAt(s, |a| + |w|);
    assert s[|a|..|a| + |w|] == w;
  }

  lemma {:induction false} SpanStartAt(s: string, i: nat)
    requires i < |s| && !IsSpace(s[i]) && forall j :: 0 <= j < i ==> IsSpace(s[j])
    ensures SpanStart(s) == i
  {
    if i > 0 {
      SpanStartAt(s[1..], i - 1);
    }
  }

  lemma {:induction false} SpanEndAt(s: string, k: nat)
    requires 0 < k <= |s| && !IsSpace(s[k - 1]) && forall j :: k <= j < |s| ==> IsSpace(s[j])
    ensures SpanEnd(s) == k
  {
    if k < |s| {
      SpanEndAt(s[..|s| - 1], k);
    }
  }
}
