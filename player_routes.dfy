/**
 * Reading beatmap ids out of pasted mappool links, as upload_mappool in
 * app/routes/player_routes.py does. The match_action state machine of the
 * same file is module MatchAction.
 */
module PlayerRoutes {
  import opened Common
  import opened Text

  // ---------------------------------------------------------------------
  // Mappool links
  // ---------------------------------------------------------------------

  /** str.splitlines() for '\n' breaks; a line keeps any '\r', which strip() then removes. */
  function SplitLines(s: string): (r: seq<string>)
    ensures |r| >= 1
  {
    if s == [] then [""]
    else
      var rest := SplitLines(s[1..]);
      if s[0] == '\n' then [""] + rest else [[s[0]] + rest[0]] + rest[1..]
  }

  /** The lines joined back with '\n'. */
  function JoinLines(lines: seq<string>): string
    requires |lines| >= 1
  {
    if |lines| == 1 then lines[0] else lines[0] + "\n" + JoinLines(lines[1..])
  }

  /** Splitting loses nothing: the lines joined back are the text. */
  lemma {:induction false} JoinSplit(s: string)
    ensures JoinLines(SplitLines(s)) == s
  {
    if s != [] {
      JoinSplit(s[1..]);
      var rest := SplitLines(s[1..]);
      if s[0] != '\n' {
        if |rest| == 1 {
          assert JoinLines(SplitLines(s)) == [s[0]] + rest[0];
        } else {
          assert SplitLines(s)[1..] == rest[1..];
          assert JoinLines(SplitLines(s)) == [s[0]] + rest[0] + "\n" + JoinLines(rest[1..]);
        }
        assert s == [s[0]] + s[1..];
      }
    }
  }

  /**
   * The beatmap id of one link: the number after the first `#osu/`, else
   * the number after the first `/` that a digit follows. `\d+` is greedy, so
   * the `(?:$|\D)` after it always holds and adds no condition.
   */
  function BeatmapId(url: string): Option<nat> {
    var anchored := SearchNumber(url, "#osu/");
    if anchored.Some? then anchored else SearchNumber(url, "/")
  }

  /** The ids of the lines in order, skipping blank ones; the first line without an id rejects all. */
  function LineIds(lines: seq<string>, idOf: string -> Option<nat>): (r: Result<seq<nat>>)
    ensures r.Ok? ==> |r.value| <= |lines|
  {
    if lines == [] then Ok([])
    else
      var url := Strip(lines[0]);
      if url == "" then LineIds(lines[1..], idOf)
      else match idOf(url)
        case None => Err("Invalid beatmap URL: " + url)
        case Some(id) =>
          match LineIds(lines[1..], idOf)
          case Err(msg) => Err(msg)
          case Ok(ids) => Ok([id] + ids)
  }

  /** The stripped non-blank lines, in order. */
  function NonBlank(lines: seq<string>): seq<string> {
    if lines == [] then []
    else if Strip(lines[0]) == "" then NonBlank(lines[1..])
    else [Strip(lines[0])] + NonBlank(lines[1..])
  }

  /**
   * The upload is accepted exactly when every non-blank line yields an id,
   * and then the ids are those of the non-blank lines, in order; otherwise
   * the message names the first line that yields none.
   */
  lemma {:induction false} LineIdsMeaning(lines: seq<string>, idOf: string -> Option<nat>)
    ensures var r := LineIds(lines, idOf); var kept := NonBlank(lines);
            (r.Ok? <==> forall k :: 0 <= k < |kept| ==> idOf(kept[k]).Some?) &&
            (r.Ok? ==> |r.value| == |kept| && forall k :: 0 <= k < |kept| ==> idOf(kept[k]) == Some(r.value[k])) &&
            (r.Err? ==> exists k :: 0 <= k < |kept| && idOf(kept[k]).None? &&
                                    r.msg == "Invalid beatmap URL: " + kept[k] &&
                                    forall i :: 0 <= i < k ==> idOf(kept[i]).Some?)
  {
    if lines != [] {
      LineIdsMeaning(lines[1..], idOf);
      var url := Strip(lines[0]);
      var rest := NonBlank(lines[1..]);
      if url != "" {
        var kept := NonBlank(lines);
        assert kept == [url] + rest;
        assert forall k :: 0 < k < |kept| ==> kept[k] == rest[k - 1];
        if idOf(url).None? {
          assert kept[0] == url;
        } else if LineIds(lines[1..], idOf).Err? {
          var k :| 0 <= k < |rest| && idOf(rest[k]).None? &&
                   LineIds(lines[1..], idOf).msg == "Invalid beatmap URL: " + rest[k] &&
                   forall i :: 0 <= i < k ==> idOf(rest[i]).Some?;
          assert kept[k + 1] == rest[k];
          assert forall i :: 0 <= i < k + 1 ==> idOf(kept[i]).Some?;
        } else {
          var ids := LineIds(lines[1..], idOf).value;
          assert LineIds(lines, idOf) == Ok([idOf(url).value] + ids);
        }
      }
    }
  }

  /**
   * upload_mappool's pasted-links branch: None when the stripped text is
   * empty (the room URL branch is taken instead), else the ids or the
   * reason for rejecting the upload.
   */
  function PastedIds(text: string): (r: Option<Result<seq<nat>>>)
    ensures r.None? <==> Strip(text) == ""
    ensures r.Some? ==> var found := LineIds(SplitLines(Strip(text)), BeatmapId);
                        (r.value.Ok? <==> found.Ok? && |found.value| == 10) &&
                        (r.value.Ok? ==> found == r.value) &&
                        (found.Err? ==> r.value == found)
  {
    var links := Strip(text);
    if links == "" then None
    else match LineIds(SplitLines(links), BeatmapId)
      case Err(msg) => Some(Err(msg))
      case Ok(ids) =>
        if |ids| != 10 then Some(Err("Please paste exactly 10 beatmap links.")) else Some(Ok(ids))
  }

  /** The pasted-links branch of upload_mappool. */
  method ParseMapLinks(text: string) returns (r: Option<Result<seq<nat>>>)
    ensures r == PastedIds(text)
  {
    var links := Strip(text);
    if links == "" {
      return None;
    }
    var found := ReadIds(SplitLines(links), BeatmapId);
    if found.Err? {
      return Some(found);
    }
    if |found.value| != 10 {
      return Some(Err("Please paste exactly 10 beatmap links."));
    }
    return Some(found);
  }

  /** The loop over the pasted lines, with `idOf` the two regular-expression searches. */
  method ReadIds(lines: seq<string>, idOf: string -> Option<nat>) returns (r: Result<seq<nat>>)
    ensures r == LineIds(lines, idOf)
  {
    var ids: seq<nat> := [];
    var i := 0;
    assert lines[0..] == lines;
    ThenEmpty(LineIds(lines, idOf));
    while i < |lines|
      invariant 0 <= i <= |lines|
      invariant LineIds(lines, idOf) == Then(ids, LineIds(lines[i..], idOf))
    {
      ThenStep(ids, lines[i..], idOf);
      var url := Strip(lines[i]);
      if url != "" {
        var id := idOf(url);
        if id.None? {
          return Err("Invalid beatmap URL: " + url);
        }
        ids := ids + [id.value];
      }
      assert lines[i..][1..] == lines[i + 1..];
      i := i + 1;
    }
    assert lines[i..] == [] && ids + [] == ids;
    return Ok(ids);
  }

  /** The ids found so far followed by the outcome for the remaining lines. */
  function Then(ids: seq<nat>, r: Result<seq<nat>>): Result<seq<nat>> {
    if r.Ok? then Ok(ids + r.value) else r
  }

  lemma ThenEmpty(r: Result<seq<nat>>)
    ensures Then([], r) == r
  {
    if r.Ok? {
      assert [] + r.value == r.value;
    }
  }

  lemma ThenStep(ids: seq<nat>, rest: seq<string>, idOf: string -> Option<nat>)
    requires rest != []
    ensures var url := Strip(rest[0]);
            Then(ids, LineIds(rest, idOf)) ==
              if url == "" then Then(ids, LineIds(rest[1..], idOf))
              else if idOf(url).None? then Err("Invalid beatmap URL: " + url)
              else Then(ids + [idOf(url).value], LineIds(rest[1..], idOf))
  {
    var url := Strip(rest[0]);
    if url != "" && idOf(url).Some? && LineIds(rest[1..], idOf).Ok? {
      assert ids + [idOf(url).value] + LineIds(rest[1..], idOf).value == ids + ([idOf(url).value] + LineIds(rest[1..], idOf).value);
    }
  }

  /**
   * A link `<p>#osu/<n><q>` with no '#' in p and q, where q does not start
   * with a digit, yields n.
   */
  lemma AnchorLink(p: string, n: nat, q: string)
    requires forall j :: 0 <= j < |p| ==> p[j] != '#'
    requires q == [] || !IsDigit(q[0])
    ensures BeatmapId(p + "#osu/" + NatToString(n) + q) == Some(n)
  {
    var digits := NatToString(n);
    var head := p + "#osu/";
    var url := head + (digits + q);
    Assoc(head, digits, q);
    assert url[|p|..|p| + 5] == "#osu/" by {
      assert url[..|head|] == head;
    }
    assert url[|p| + 5] == digits[0];
    assert forall j :: 0 <= j < |p| ==> url[j] == p[j];
    AnchorFound(url, |p|);
    DropPrefix(head, digits + q);
    LeadingDigitsConcat(digits, q);
    DigitsRoundTrip(n);
  }

  lemma Assoc(a: string, b: string, c: string)
    ensures a + b + c == a + (b + c)
  {
  }

  lemma DropPrefix(a: string, b: string)
    ensures (a + b)[|a|..] == b
  {
  }

  /** `#osu/` followed by a digit at i, with no '#' before it, is the match re.search finds. */
  lemma AnchorFound(url: string, i: nat)
    requires DigitsFollow(url, "#osu/", i)
    requires forall j :: 0 <= j < i ==> url[j] != '#'
    ensures SearchNumber(url, "#osu/") == Some(DigitsValue(LeadingDigits(url[i + 5..])))
  {
    OccurrenceStartsWith(url, "#osu/");
    SearchNumberAt(url, "#osu/", i);
  }

  /** A run of digits followed by a non-digit is read to its end. */
  lemma {:induction false} LeadingDigitsConcat(d: string, q: string)
    requires AllDigits(d)
    requires q == [] || !IsDigit(q[0])
    ensures LeadingDigits(d + q) == d
  {
    if d == [] {
      assert d + q == q;
    } else {
      assert (d + q)[1..] == d[1..] + q;
      LeadingDigitsConcat(d[1..], q);
    }
  }

  /**
   * The link stored with each mappool entry, built at
   * app/routes/player_routes.py:132-135, reads back to the beatmap id.
   */
  lemma StoredLinkRoundTrip(set_id: nat, n: nat)
    ensures BeatmapId("https://osu.ppy.sh/beatmapsets/" + NatToString(set_id) + "#osu/" + NatToString(n)) == Some(n)
  {
    var p := "https://osu.ppy.sh/beatmapsets/" + NatToString(set_id);
    NoAnchorInSetLink(set_id);
    AnchorLink(p, n, "");
    assert p + "#osu/" + NatToString(n) + "" == "https://osu.ppy.sh/beatmapsets/" + NatToString(set_id) + "#osu/" + NatToString(n);
  }

  lemma NoAnchorInSetLink(set_id: nat)
    ensures var p := "https://osu.ppy.sh/beatmapsets/" + NatToString(set_id);
            forall j :: 0 <= j < |p| ==> p[j] != '#'
  {
    var p := "https://osu.ppy.sh/beatmapsets/" + NatToString(set_id);
    forall j | 0 <= j < |p|
      ensures p[j] != '#'
    {
      if j >= 31 {
        assert p[j] == NatToString(set_id)[j - 31];
      }
    }
  }

  /**
   * A link that ends in `/<n>` after a prefix with no '#' and no earlier
   * '/' directly before a digit yields n by the second pattern.
   */
  lemma SlashLink(p: string, n: nat)
    requires p != [] && p[|p| - 1] == '/'
    requires forall j :: 0 <= j < |p| ==> p[j] != '#'
    requires forall j :: 0 <= j < |p| - 2 && p[j] == '/' ==> !IsDigit(p[j + 1])
    ensures BeatmapId(p + NatToString(n)) == Some(n)
  {
    var digits := NatToString(n);
    var url := p + digits;
    NoAnchor(p, digits);
    OccurrenceStartsWith(url, "/");
    forall j | 0 <= j < |p| - 1
      ensures !DigitsFollow(url, "/", j)
    {
      assert url[j] == p[j] && url[j + 1] == p[j + 1];
    }
    assert OccursAt(url, "/", |p| - 1) by {
      assert url[|p| - 1..|p|] == ['/'];
    }
    assert url[|p|] == digits[0];
    SearchNumberAt(url, "/", |p| - 1);
    DropPrefix(p, digits);
    LeadingDigitsConcat(digits, []);
    assert digits + [] == digits;
    DigitsRoundTrip(n);
  }

  /** Without a '#', the first pattern finds nothing. */
  lemma NoAnchor(p: string, digits: string)
    requires forall j :: 0 <= j < |p| ==> p[j] != '#'
    requires AllDigits(digits)
    ensures SearchNumber(p + digits, "#osu/") == None
  {
    var url := p + digits;
    forall j | 0 <= j < |url|
      ensures url[j] != '#'
    {
      if j >= |p| {
        assert url[j] == digits[j - |p|];
      }
    }
    OccurrenceStartsWith(url, "#osu/");
  }
}
