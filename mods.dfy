/** The upstream mod record and the two pieces of logic on it that the feed
    uses: the platform-support check and the epoch-time getters. Only the
    fields the feed reads are kept. */
module Mods {
  import opened Config

  /** Go's `uint64`, the type of the epoch fields in the upstream JSON. */
  type Uint64 = n: int | 0 <= n < 0x1_0000_0000_0000_0000

  const TwoTo63: int := 0x8000_0000_0000_0000
  const TwoTo64: int := 0x1_0000_0000_0000_0000

  /** One entry of a platform list: a platform name and its status. */
  datatype PlatformStatus = PlatformStatus(platform: string, status: int, modfileLive: int)

  datatype Modfile = Modfile(platforms: seq<PlatformStatus>)

  /** A Go `time.Time` built by `time.Unix(seconds, 0)`. */
  datatype Time = Unix(seconds: int)

  /** The conversion `int64(u)` of a `uint64`: the same 64 bits read as a
      two's-complement number. */
  function ToInt64(u: Uint64): (i: int)
    ensures -TwoTo63 <= i < TwoTo63
    ensures (u - i) % TwoTo64 == 0
    ensures u < TwoTo63 ==> i == u
  {
    if u < TwoTo63 then u else u - TwoTo64
  }

  datatype Mod = Mod(
    nameId: string,
    name: string,
    summary: string,
    description: string,
    profileUrl: string,
    dateAddedEpoch: Uint64,
    dateUpdatedEpoch: Uint64,
    modfile: Modfile,
    platforms: seq<PlatformStatus>)
  {
    /** `Mod.String`: a mod prints as its display name. */
    function String(): string
    {
      name
    }

    /** `DateAdded`: the creation epoch read as whole seconds. The range and
        the congruence together pin down the signed 64-bit reading. */
    function DateAdded(): (t: Time)
      ensures dateAddedEpoch < TwoTo63 ==> t.seconds == dateAddedEpoch
      ensures (dateAddedEpoch - t.seconds) % TwoTo64 == 0
      ensures -TwoTo63 <= t.seconds < TwoTo63
    {
      Unix(ToInt64(dateAddedEpoch))
    }

    /** `DateUpdated`: the update epoch read as whole seconds. */
    function DateUpdated(): (t: Time)
      ensures dateUpdatedEpoch < TwoTo63 ==> t.seconds == dateUpdatedEpoch
      ensures (dateUpdatedEpoch - t.seconds) % TwoTo64 == 0
      ensures -TwoTo63 <= t.seconds < TwoTo63
    {
      Unix(ToInt64(dateUpdatedEpoch))
    }

    /** `SupportsPlatform`: decided by the modfile's platform list only. */
    predicate SupportsPlatform(p: Platform)
    {
      PlatformSupported(modfile.platforms, p)
    }
  }

  /** `i` is the position of the first entry of `ps` naming platform `p`. */
  ghost predicate FirstMatch(ps: seq<PlatformStatus>, p: Platform, i: int)
  {
    0 <= i < |ps| && ps[i].platform == p && forall j :: 0 <= j < i ==> ps[j].platform != p
  }

  /** The search loop of `SupportsPlatform`: the first entry naming `p`
      decides, and it supports `p` exactly when its status is 1. */
  function PlatformSupported(ps: seq<PlatformStatus>, p: Platform): (r: bool)
    ensures r <==> exists i :: FirstMatch(ps, p, i) && ps[i].status == 1
  {
    if ps == [] then false
    else if ps[0].platform == p then
      assert FirstMatch(ps, p, 0);
      ps[0].status == 1
    else
      var r := PlatformSupported(ps[1..], p);
      assert forall i :: FirstMatch(ps[1..], p, i) <==> FirstMatch(ps, p, i + 1);
      assert forall i :: FirstMatch(ps, p, i) ==> i >= 1;
      assert r ==> exists i :: FirstMatch(ps, p, i) && ps[i].status == 1;
      assert (exists i :: FirstMatch(ps, p, i) && ps[i].status == 1) ==> r by {
        if exists i :: FirstMatch(ps, p, i) && ps[i].status == 1 {
          var i :| FirstMatch(ps, p, i) && ps[i].status == 1;
          assert FirstMatch(ps[1..], p, i - 1);
        }
      }
      r
  }

  /** There is at most one first match. */
  lemma FirstMatchUnique(ps: seq<PlatformStatus>, p: Platform, i: int, j: int)
    requires FirstMatch(ps, p, i) && FirstMatch(ps, p, j)
    ensures i == j
  {
  }

  /** With no entry naming the platform, the mod does not support it. */
  lemma NoEntryUnsupported(m: Mod, p: Platform)
    requires forall i :: 0 <= i < |m.modfile.platforms| ==> m.modfile.platforms[i].platform != p
    ensures !m.SupportsPlatform(p)
  {
  }

  /** The first entry naming the platform decides: supported exactly when
      its status is 1, so status 0, 2 or any other value means unsupported,
      whatever later entries say. */
  lemma FirstEntryDecides(m: Mod, p: Platform, i: int)
    requires FirstMatch(m.modfile.platforms, p, i)
    ensures m.SupportsPlatform(p) <==> m.modfile.platforms[i].status == 1
  {
    if m.SupportsPlatform(p) {
      var k :| FirstMatch(m.modfile.platforms, p, k) && m.modfile.platforms[k].status == 1;
      FirstMatchUnique(m.modfile.platforms, p, i, k);
    }
  }

  /** Entries appended after a matching entry are ignored. */
  lemma {:induction false} LaterEntriesIgnored(ps: seq<PlatformStatus>, more: seq<PlatformStatus>, p: Platform, i: int)
    requires 0 <= i < |ps| && ps[i].platform == p
    ensures PlatformSupported(ps + more, p) == PlatformSupported(ps, p)
  {
    if ps[0].platform != p {
      assert (ps + more)[1..] == ps[1..] + more;
      LaterEntriesIgnored(ps[1..], more, p, i - 1);
    }
  }

  /** The top-level platform list of the mod plays no part. */
  lemma TopLevelPlatformsIgnored(m: Mod, other: seq<PlatformStatus>, p: Platform)
    ensures m.(platforms := other).SupportsPlatform(p) == m.SupportsPlatform(p)
  {
  }
}
