/**
 The reduced-precision (fp16) decision of `should_use_fp16`. The host queries of
 `lcm.py` (platform name, CUDA device properties) become the fields of
 `HostFacts`, so the decision is a pure function of them. It chooses the
 weights that are loaded, not the arithmetic of each inference call.
 */
module Precision {
  import opened Substrings

  /** What the host reports: macOS or not, the CUDA compute-capability major version, the GPU name. */
  datatype HostFacts = HostFacts(isMac: bool, major: int, name: string)

  /** Model-number substrings of the GTX 16 series, on which fp16 is numerically unstable. */
  const Nvidia16Series: seq<string> := ["1660", "1650", "1630"]

  /** The oldest compute-capability major version with usable fp16. */
  const MinFp16Major: int := 6

  /** Some entry of `denylist` occurs in `name`: the order-free statement of the denylist rule. */
  predicate AnyDenied(name: string, denylist: seq<string>)
  {
    exists k :: 0 <= k < |denylist| && Contains(name, denylist[k])
  }

  /** The decision stated without any control flow. */
  predicate Fp16Safe(h: HostFacts)
  {
    h.isMac || (h.major >= MinFp16Major && !AnyDenied(h.name, Nvidia16Series))
  }

  /**
   The denylist loop written as a first-match recursion: it stops at the first
   entry found in `name`, and reports whether one was found.
   */
  function DeniedBy(name: string, denylist: seq<string>): (r: bool)
    ensures r <==> AnyDenied(name, denylist)
  {
    if |denylist| == 0 then false
    else if Contains(name, denylist[0]) then true
    else
      var rest := DeniedBy(name, denylist[1..]);
      assert forall k :: 1 <= k < |denylist| ==> denylist[k] == denylist[1..][k - 1];
      rest
  }

  /** `should_use_fp16` as a pure function of the host facts, branch for branch. */
  function UseFp16(h: HostFacts): (r: bool)
    ensures h.isMac ==> r
    ensures !h.isMac && h.major < MinFp16Major ==> !r
    ensures !h.isMac && AnyDenied(h.name, Nvidia16Series) ==> !r
    ensures r <==> Fp16Safe(h)
  {
    if h.isMac then true
    else if h.major < MinFp16Major then false
    else !DeniedBy(h.name, Nvidia16Series)
  }

  /**
   The denylist scan as a loop over the entries, returning at the first one found
   in `name`: it reports a hit exactly when some entry occurs, whatever the order.
   */
  method ScanDenylist(name: string, denylist: seq<string>) returns (denied: bool)
    ensures denied <==> AnyDenied(name, denylist)
  {
    for k := 0 to |denylist|
      invariant forall j :: 0 <= j < k ==> !Contains(name, denylist[j])
    {
      if Contains(name, denylist[k]) {
        return true;
      }
    }
    return false;
  }

  /** `should_use_fp16` step by step: Mac check, capability check, then the denylist loop. */
  method ShouldUseFp16(h: HostFacts) returns (useFp16: bool)
    ensures useFp16 <==> Fp16Safe(h)
    ensures useFp16 == UseFp16(h)
  {
    if h.isMac {
      return true;
    }
    if h.major < MinFp16Major {
      return false;
    }
    var denied := ScanDenylist(h.name, Nvidia16Series);
    if denied {
      return false;
    }
    return true;
  }

  /**
   Reordering (or repeating) the denylist entries does not change the answer:
   only the set of entries matters.
   */
  lemma {:induction false} DenylistOrderIrrelevant(name: string, a: seq<string>, b: seq<string>)
    requires forall x :: x in a <==> x in b
    ensures DeniedBy(name, a) == DeniedBy(name, b)
  {
    if AnyDenied(name, a) {
      var k :| 0 <= k < |a| && Contains(name, a[k]);
      assert a[k] in b;
      var j :| 0 <= j < |b| && b[j] == a[k];
      assert Contains(name, b[j]);
    }
    if AnyDenied(name, b) {
      var k :| 0 <= k < |b| && Contains(name, b[k]);
      assert b[k] in a;
      var j :| 0 <= j < |a| && a[j] == b[k];
      assert Contains(name, a[j]);
    }
  }

  /** A GTX 1660 Ti off macOS runs in full precision even though its capability is 7. */
  lemma Gtx1660TiIsFullPrecision()
    ensures !UseFp16(HostFacts(false, 7, "NVIDIA GeForce GTX 1660 Ti"))
  {
    var name := "NVIDIA GeForce GTX 1660 Ti";
    assert OccursAt(name, "1660", 19);
    assert Contains(name, Nvidia16Series[0]);
  }

  /** An RTX 3090 (capability 8, no 16-series number in its name) runs in fp16. */
  lemma Rtx3090UsesFp16()
    ensures UseFp16(HostFacts(false, 8, "NVIDIA GeForce RTX 3090"))
  {
    var name := "NVIDIA GeForce RTX 3090";
    assert '1' !in name;
    forall k | 0 <= k < |Nvidia16Series|
      ensures !Contains(name, Nvidia16Series[k])
    {
      FirstCharAbsent(name, Nvidia16Series[k]);
    }
  }
}
