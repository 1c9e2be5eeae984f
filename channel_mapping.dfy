/**
 * The mapping from the channels a user submits with an analysis request to
 * the platform names the analysis service accepts.
 */
module ChannelMapping {
  import opened Wrappers

  /** A character with an ASCII capital replaced by the same letter in lower case. */
  function AsciiLower(c: char): (r: char)
    ensures !('A' <= r <= 'Z')
    ensures !('A' <= c <= 'Z') ==> r == c
    ensures 'A' <= c <= 'Z' ==> 'a' <= r <= 'z' && r as int - 'a' as int == c as int - 'A' as int
  {
    if 'A' <= c <= 'Z' then (c as int + 32) as char else c
  }

  /** `s` with its ASCII capitals lowered. */
  function Lower(s: string): (r: string)
    ensures |r| == |s|
    ensures forall i :: 0 <= i < |s| ==> r[i] == AsciiLower(s[i])
  {
    if s == [] then [] else [AsciiLower(s[0])] + Lower(s[1..])
  }

  /** The platform a lower-cased channel name stands for. */
  function PlatformFor(key: string): (r: Option<string>)
    ensures r.Some? ==> r.value in KnownPlatforms
  {
    if key == "facebook" then Some("Facebook")
    else if key == "instagram" then Some("Instagram")
    else if key == "google ads" then Some("Google Ads")
    else if key == "youtube" then Some("YouTube")
    else if key == "tiktok" then Some("TikTok")
    else None
  }

  const KnownPlatforms: set<string> := {"Facebook", "Instagram", "Google Ads", "YouTube", "TikTok"}

  /** The platform of one submitted channel, compared case-insensitively. */
  function ChannelPlatform(channel: string): Option<string> {
    PlatformFor(Lower(channel))
  }

  /**
   * The platforms of the submitted channels, in submission order; a channel
   * with no platform is dropped and a repeated one is repeated.
   */
  function Platforms(channels: seq<string>): (r: seq<string>)
    ensures |r| <= |channels|
    ensures forall p :: p in r <==> exists c :: c in channels && ChannelPlatform(c) == Some(p)
  {
    if channels == [] then []
    else
      var prefix := channels[..|channels| - 1];
      var last := channels[|channels| - 1];
      assert channels == prefix + [last];
      var rest := Platforms(prefix);
      match ChannelPlatform(last)
      case Some(p) => rest + [p]
      case None => rest
  }

  /** The platforms of a concatenation are those of each part, in order. */
  lemma {:induction false} PlatformsAppend(a: seq<string>, b: seq<string>)
    ensures Platforms(a + b) == Platforms(a) + Platforms(b)
  {
    if b != [] {
      var prefix := b[..|b| - 1];
      PlatformsAppend(a, prefix);
      assert (a + b)[..|a + b| - 1] == a + prefix;
    } else {
      assert a + b == a;
    }
  }

  /** A single channel yields its platform, or nothing when it has none. */
  lemma PlatformsSingleton(channel: string)
    ensures Platforms([channel]) == (if ChannelPlatform(channel).Some? then [ChannelPlatform(channel).value] else [])
  {
    assert [channel][..0] == [];
  }

  /** A capitalised channel name is recognised. */
  lemma FacebookRecognised()
    ensures ChannelPlatform("Facebook") == Some("Facebook")
  {
    var lowered := Lower("Facebook");
    assert forall i :: 0 <= i < 8 ==> lowered[i] == "facebook"[i];
    assert lowered == "facebook";
  }

  /** The request loop that collects the platforms. */
  method MapChannels(channels: seq<string>) returns (platforms: seq<string>)
    ensures platforms == Platforms(channels)
    ensures forall p :: p in platforms ==> p in KnownPlatforms
  {
    platforms := [];
    var i := 0;
    while i < |channels|
      invariant 0 <= i <= |channels|
      invariant platforms == Platforms(channels[..i])
    {
      assert channels[..i + 1][..i] == channels[..i];
      var key := Lower(channels[i]);
      if key == "facebook" || key == "instagram" || key == "google ads" || key == "youtube" || key == "tiktok" {
        platforms := platforms + [PlatformFor(key).value];
      }
      i := i + 1;
    }
    assert channels[..i] == channels;
  }

  lemma {:induction false} LowerIdempotent(s: string)
    ensures Lower(Lower(s)) == Lower(s)
  {
    var once := Lower(s);
    var twice := Lower(once);
    assert forall i :: 0 <= i < |s| ==> twice[i] == once[i];
  }

  /** Lower-casing the channels first changes nothing: the mapping ignores case. */
  lemma {:induction false} PlatformsIgnoreCase(channels: seq<string>, lowered: seq<string>)
    requires |lowered| == |channels|
    requires forall i :: 0 <= i < |channels| ==> lowered[i] == Lower(channels[i])
    ensures Platforms(lowered) == Platforms(channels)
  {
    if channels != [] {
      var n := |channels| - 1;
      PlatformsIgnoreCase(channels[..n], lowered[..n]);
      LowerIdempotent(channels[n]);
    }
  }
}
