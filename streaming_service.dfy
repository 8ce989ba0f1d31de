/**
 * Stream settings (app/services/streaming_service.py): the Twitch channel a
 * host types in is reduced to a bare channel name, and a live flag is
 * toggled. The tournament data is modelled only on the two keys these
 * operations read and write.
 */
module Streaming {
  import opened Common
  import opened Text

  const TwitchMarker: string := "twitch.tv/"

  /**
   * s.split("twitch.tv/")[-1]: the text after the last occurrence of the
   * marker, or all of s when the marker does not occur. The marker cannot
   * overlap itself, so split's last piece is exactly that text.
   */
  function AfterMarker(s: string): (r: string)
    ensures !Contains(s, TwitchMarker) ==> r == s
    ensures Contains(s, TwitchMarker) ==>
              |r| + |TwitchMarker| <= |s| && r == s[|s| - |r|..] &&
              OccursAt(s, TwitchMarker, |s| - |r| - |TwitchMarker|) &&
              forall j :: |s| - |r| - |TwitchMarker| < j ==> !OccursAt(s, TwitchMarker, j)
  {
    var j := LastOccurrence(s, TwitchMarker, |s| - |TwitchMarker|);
    if j < 0 then s else s[j + |TwitchMarker|..]
  }

  /** The characters of the regular-expression class [a-zA-Z0-9_]. */
  predicate NameChar(c: char) {
    ('a' <= c <= 'z') || ('A' <= c <= 'Z') || ('0' <= c <= '9') || c == '_'
  }

  predicate IsName(s: string) {
    forall i :: 0 <= i < |s| ==> NameChar(s[i])
  }

  /** re.sub(r'[^a-zA-Z0-9_]', '', s): every other character removed, the rest kept in order. */
  function Clean(s: string): (r: string)
    ensures IsName(r)
    ensures forall c :: NameChar(c) ==> multiset(r)[c] == multiset(s)[c]
    ensures IsName(s) ==> r == s
  {
    if s == [] then []
    else
      var rest := Clean(s[1..]);
      assert s == [s[0]] + s[1..];
      if NameChar(s[0]) then [s[0]] + rest else rest
  }

  /** One character: kept when it is in the class, dropped otherwise. */
  lemma CleanChar(c: char)
    ensures Clean([c]) == if NameChar(c) then [c] else []
  {
    assert [c][1..] == [];
  }

  /** Cleaning a non-empty text: its first character is kept or dropped, then the rest is cleaned. */
  lemma CleanFirst(a: string)
    requires a != []
    ensures Clean(a) == (if NameChar(a[0]) then [a[0]] else []) + Clean(a[1..])
  {
    assert a == [a[0]] + a[1..];
  }

  /** The same for a non-empty text followed by b. */
  lemma CleanFirstOf(a: string, b: string)
    requires a != []
    ensures Clean(a + b) == (if NameChar(a[0]) then [a[0]] else []) + Clean(a[1..] + b)
  {
    assert (a + b)[0] == a[0];
    assert (a + b)[1..] == a[1..] + b;
    CleanFirst(a + b);
  }

  /** The step of CleanConcat: the property for a text and b follows from that for its tail and b. */
  lemma CleanConcatStep(a: string, b: string)
    requires a != []
    requires Clean(a[1..] + b) == Clean(a[1..]) + Clean(b)
    ensures Clean(a + b) == Clean(a) + Clean(b)
  {
    CleanFirstOf(a, b);
    CleanFirst(a);
    ConcatAssoc(if NameChar(a[0]) then [a[0]] else [], Clean(a[1..]), Clean(b));
  }

  /** re.sub works character by character: cleaning a concatenation cleans each part. */
  lemma {:induction false} CleanConcat(a: string, b: string)
    ensures Clean(a + b) == Clean(a) + Clean(b)
  {
    if a == [] {
      assert a + b == b;
      assert Clean(a) == [];
    } else {
      CleanConcat(a[1..], b);
      CleanConcatStep(a, b);
    }
  }

  /** The name set_stream_channel stores, or the error it reports. */
  function ChannelName(input: string): (r: Result<string>)
    ensures input == "" ==> r == Err("Twitch channel name is required.")
    ensures r.Ok? ==> r.value != "" && IsName(r.value)
    ensures r.Ok? ==> r.value == Clean(AfterMarker(input))
    ensures input != "" ==>
              r == if Clean(AfterMarker(input)) == "" then Err("Invalid Twitch channel name.")
                   else Ok(Clean(AfterMarker(input)))
  {
    if input == "" then Err("Twitch channel name is required.")
    else
      var name := Clean(if Contains(input, TwitchMarker) then AfterMarker(input) else input);
      if name == "" then Err("Invalid Twitch channel name.") else Ok(name)
  }

  lemma NameHasNoMarker(n: string)
    requires IsName(n)
    ensures !Contains(n, TwitchMarker)
  {
    forall i | 0 <= i <= |n| - |TwitchMarker|
      ensures !OccursAt(n, TwitchMarker, i)
    {
      assert NameChar(n[i + 9]);
    }
  }

  /** A bare channel name is stored as typed. */
  lemma BareNameKept(n: string)
    requires n != "" && IsName(n)
    ensures ChannelName(n) == Ok(n)
  {
    NameHasNoMarker(n);
  }

  /** A channel URL has no '/' after its prefix. */
  lemma NoSlashAfterPrefix(n: string)
    requires IsName(n)
    ensures forall i :: 22 <= i < |"https://www.twitch.tv/" + n| ==> ("https://www.twitch.tv/" + n)[i] != '/'
  {
    var s := "https://www.twitch.tv/" + n;
    forall i | 22 <= i < |s|
      ensures s[i] != '/'
    {
      assert s[i] == n[i - 22];
    }
  }

  /** In a channel URL the last marker is the one ending the prefix. */
  lemma UrlMarker(n: string)
    requires IsName(n)
    ensures AfterMarker("https://www.twitch.tv/" + n) == n
  {
    var prefix := "https://www.twitch.tv/";
    var s := prefix + n;
    assert s[..22] == prefix;
    assert OccursAt(s, TwitchMarker, 12) by {
      assert s[12..22] == prefix[12..22];
    }
    var r := AfterMarker(s);
    var j := |s| - |r| - |TwitchMarker|;
    assert s[j + 9] == s[j..j + |TwitchMarker|][9] == '/';
    NoSlashAfterPrefix(n);
    assert r == s[22..];
  }

  /** A channel URL is reduced to the channel name. */
  lemma UrlReducedToName(n: string)
    requires n != "" && IsName(n)
    ensures ChannelName("https://www.twitch.tv/" + n) == Ok(n)
  {
    var s := "https://www.twitch.tv/" + n;
    UrlMarker(n);
    assert Contains(s, TwitchMarker) by {
      assert s[12..22] == TwitchMarker;
      assert OccursAt(s, TwitchMarker, 12);
    }
  }

  const LiveMessage: string := "\U{1F534} Stream is now LIVE on the tournament page!"
  const StoppedMessage: string := "\U{26AB} Stream has been stopped and hidden from the tournament page."

  /** The two keys of the tournament data the stream settings use. */
  class StreamSettings {
    var twitchChannel: Option<string>
    var streamLive: Option<bool>

    constructor (channel: Option<string>, live: Option<bool>)
      ensures twitchChannel == channel && streamLive == live
    {
      twitchChannel := channel;
      streamLive := live;
    }

    method SetStreamChannel(input: string) returns (reply: Reply)
      modifies this
      ensures ChannelName(input).Err? ==>
                reply == Reply(Error, ChannelName(input).msg) && twitchChannel == old(twitchChannel)
      ensures ChannelName(input).Ok? ==>
                reply == Reply(Success, "Twitch channel set to: " + ChannelName(input).value) &&
                twitchChannel == Some(ChannelName(input).value)
      ensures streamLive == old(streamLive)
    {
      if input == "" {
        return Reply(Error, "Twitch channel name is required.");
      }
      var channel := input;
      if Contains(channel, TwitchMarker) {
        channel := AfterMarker(channel);
      }
      channel := Clean(channel);
      if channel == "" {
        return Reply(Error, "Invalid Twitch channel name.");
      }
      twitchChannel := Some(channel);
      reply := Reply(Success, "Twitch channel set to: " + channel);
    }

    /** Flip the live flag (absent means off); refused without a channel. */
    method ToggleStream() returns (reply: Reply)
      modifies this
      ensures twitchChannel == old(twitchChannel)
      ensures old(twitchChannel).None? || old(twitchChannel) == Some("") ==>
                reply == Reply(Error, "No Twitch channel configured.") && streamLive == old(streamLive)
      ensures old(twitchChannel).Some? && old(twitchChannel) != Some("") ==>
                streamLive == Some(!(old(streamLive) == Some(true))) &&
                reply == (if streamLive == Some(true) then Reply(Success, LiveMessage)
                          else Reply(Info, StoppedMessage))
    {
      if twitchChannel.None? || twitchChannel == Some("") {
        return Reply(Error, "No Twitch channel configured.");
      }
      var current := if streamLive.Some? then streamLive.value else false;
      streamLive := Some(!current);
      if !current {
        reply := Reply(Success, LiveMessage);
      } else {
        reply := Reply(Info, StoppedMessage);
      }
    }

    method ClearStream() returns (reply: Reply)
      modifies this
      ensures twitchChannel.None? && streamLive.None?
      ensures reply == Reply(Success, "Stream settings cleared.")
    {
      twitchChannel := None;
      streamLive := None;
      reply := Reply(Success, "Stream settings cleared.");
    }
  }
}
