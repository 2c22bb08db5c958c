/** `toWebSocketUrl` and the two URLs the relay flow builds from the API base.
    A URL is split at its first `:`; the part before it is the scheme, which
    `new URL` lower-cases, and `url.protocol` is that scheme followed by `:`.
    Host and path normalisation by the URL library is not modelled. */
module Urls {
  import opened Optional

  /** Index of the first `:` at or after `i`. */
  function ColonFrom(s: string, i: nat): (r: Option<nat>)
    requires i <= |s|
    ensures r.Some? ==> i <= r.value < |s| && s[r.value] == ':'
                        && forall j :: i <= j < r.value ==> s[j] != ':'
    ensures r.None? ==> forall j :: i <= j < |s| ==> s[j] != ':'
    decreases |s| - i
  {
    if i == |s| then None
    else if s[i] == ':' then Some(i)
    else ColonFrom(s, i + 1)
  }

  /** `new URL(s)` succeeds only when `s` has a non-empty scheme before a `:`. */
  predicate HasScheme(s: string) {
    var c := ColonFrom(s, 0);
    c.Some? && c.value > 0
  }

  function LowerChar(c: char): char {
    if 'A' <= c <= 'Z' then (c as int + 32) as char else c
  }

  function Lower(s: string): (r: string)
    ensures |r| == |s|
    ensures forall i :: 0 <= i < |s| ==> r[i] == LowerChar(s[i])
  {
    seq(|s|, i requires 0 <= i < |s| => LowerChar(s[i]))
  }

  /** `url.protocol`: the lower-cased scheme with its `:`. */
  function Protocol(s: string): string
    requires HasScheme(s)
  {
    Lower(s[..ColonFrom(s, 0).value + 1])
  }

  /** Everything after the scheme's `:`, which the protocol change leaves alone. */
  function AfterScheme(s: string): string
    requires HasScheme(s)
  {
    s[ColonFrom(s, 0).value + 1..]
  }

  /** `toWebSocketUrl(httpUrl)`; `None` when `new URL` would throw. */
  function ToWebSocketUrl(httpUrl: string): (r: Option<string>)
    ensures r.Some? <==> HasScheme(httpUrl)
    ensures r.Some? ==> HasScheme(r.value)
    ensures r.Some? ==> (Protocol(r.value) == "wss:" <==> Protocol(httpUrl) == "https:")
    ensures r.Some? ==> (Protocol(r.value) == "ws:" <==> Protocol(httpUrl) != "https:")
    ensures r.Some? ==> AfterScheme(r.value) == AfterScheme(httpUrl)
  {
    if !HasScheme(httpUrl) then None
    else
      var scheme := if Protocol(httpUrl) == "https:" then "wss:" else "ws:";
      var u := scheme + AfterScheme(httpUrl);
      SchemePrefix(scheme, AfterScheme(httpUrl));
      Some(u)
  }

  /** A scheme of letters ending in its one `:` is recognised as the protocol
      of any URL it starts. */
  lemma SchemePrefix(scheme: string, rest: string)
    requires scheme == "wss:" || scheme == "ws:"
    ensures HasScheme(scheme + rest)
    ensures Protocol(scheme + rest) == scheme
    ensures AfterScheme(scheme + rest) == rest
  {
    var u := scheme + rest;
    var k := |scheme| - 1;
    assert u[k] == ':';
    assert forall j :: 0 <= j < k ==> u[j] != ':' by {
      forall j | 0 <= j < k ensures u[j] != ':' {
        assert u[j] == scheme[j];
      }
    }
    var c := ColonFrom(u, 0);
    assert c == Some(k);
    assert u[..k + 1] == scheme;
    assert u[k + 1..] == rest;
  }

  /** Upload endpoint of the relay: plain concatenation onto the base. */
  function UploadUrl(base: string): (r: string)
    ensures |r| == |base| + |"/transcriptions"|
    ensures r[..|base|] == base
  {
    base + "/transcriptions"
  }

  /** The stream URL `${toWebSocketUrl(base)}/transcriptions/${id}/stream`:
      it keeps the base's host and path, puts the id between `/transcriptions/`
      and `/stream`, and is secure exactly when the base is. */
  function StreamUrl(base: string, id: string): (r: Option<string>)
    ensures r.Some? <==> HasScheme(base)
    ensures r.Some? ==> HasScheme(r.value)
    ensures r.Some? ==> (Protocol(r.value) == "wss:" <==> Protocol(base) == "https:")
    ensures r.Some? ==> (Protocol(r.value) == "ws:" <==> Protocol(base) != "https:")
    ensures r.Some? ==> AfterScheme(r.value) == AfterScheme(base) + "/transcriptions/" + id + "/stream"
  {
    match ToWebSocketUrl(base)
    case None => None
    case Some(ws) =>
      var scheme := if Protocol(base) == "https:" then "wss:" else "ws:";
      var tail := AfterScheme(base) + "/transcriptions/" + id + "/stream";
      assert ws + "/transcriptions/" + id + "/stream" == scheme + tail;
      SchemePrefix(scheme, tail);
      Some(ws + "/transcriptions/" + id + "/stream")
  }
}
