/** The serial-port listing: which entries of `/dev` look like serial devices. */
module Ports {
  import opened Text

  /** `filter_dev` as written: the name is lower-cased first, and only then
      tested for `S0` with an upper-case `S`. */
  predicate FilterDev(dev_: string) {
    var dev := Lower(dev_);
    IsInfix("cu", Lower(dev)) || IsInfix("usb", Lower(dev)) || IsInfix("acm", Lower(dev)) || IsInfix("S0", dev)
  }

  /** A lower-cased name never contains `S0`. */
  lemma LowerHasNoS0(d: string)
    ensures !IsInfix("S0", Lower(d))
  {
    if IsInfix("S0", Lower(d)) {
      var i :| 0 <= i <= |Lower(d)| && OccursAt("S0", Lower(d), i);
      assert Lower(d)[i..i + 2][0] == 'S';
      LowerHasNoUpper(d);
      assert false;
    }
  }

  lemma LowerIdempotent(d: string)
    ensures Lower(Lower(d)) == Lower(d)
  {
  }

  /** `filter_dev` as written accepts exactly the names whose lower-case form
      contains `cu`, `usb` or `acm`: its `S0` test can never succeed. */
  lemma FilterDevIgnoresS0(d: string)
    ensures FilterDev(d) <==> IsInfix("cu", Lower(d)) || IsInfix("usb", Lower(d)) || IsInfix("acm", Lower(d))
  {
    LowerIdempotent(d);
    LowerHasNoS0(d);
  }

  /** `filter_dev` as evidently intended: the `S0` test looks at the name as
      listed, so `ttyS0`-style UARTs are kept in addition to what the test as
      written keeps. */
  function FilterDevIntended(dev: string): (r: bool)
    ensures r <==> FilterDev(dev) || IsInfix("S0", dev)
  {
    FilterDevIgnoresS0(dev);
    IsInfix("cu", Lower(dev)) || IsInfix("usb", Lower(dev)) || IsInfix("acm", Lower(dev)) || IsInfix("S0", dev)
  }

  /** A name without `c`, without `a`, and without a `u` followed by `s`
      contains none of the three markers. */
  lemma NoMarkers(low: string)
    requires forall i :: 0 <= i < |low| ==> low[i] != 'c' && low[i] != 'a'
    requires forall i :: 0 <= i < |low| - 1 ==> low[i] == 'u' ==> low[i + 1] != 's'
    ensures !IsInfix("cu", low) && !IsInfix("usb", low) && !IsInfix("acm", low)
  {
    forall i | 0 <= i <= |low|
      ensures !OccursAt("cu", low, i) && !OccursAt("usb", low, i) && !OccursAt("acm", low, i)
    {
      if i + 1 < |low| {
        assert low[i..i + 2][0] == low[i] && low[i..i + 2][1] == low[i + 1];
      }
    }
  }

  /** The on-board UART `ttyS0` is dropped by `filter_dev` as written and kept
      by the intended test. */
  lemma FilterDevMissesTtyS0()
    ensures !FilterDev("ttyS0") && FilterDevIntended("ttyS0")
  {
    var low := Lower("ttyS0");
    assert low == "ttys0" by {
      assert low[3] == LowerChar('S');
    }
    assert OccursAt("S0", "ttyS0", 3);
    FilterDevIgnoresS0("ttyS0");
    NoMarkers(low);
  }

  /** `['/dev/' + d for d in devs if keep(d)]`: the kept names, in listing
      order, each under `/dev/`. */
  function DevPaths(devs: seq<string>, keep: string -> bool): (r: seq<string>)
    ensures |r| <= |devs|
    ensures forall p :: p in r <==> exists d :: d in devs && keep(d) && p == "/dev/" + d
  {
    if devs == [] then []
    else
      var rest := DevPaths(devs[1..], keep);
      assert forall d :: d in devs <==> d == devs[0] || d in devs[1..];
      if keep(devs[0]) then ["/dev/" + devs[0]] + rest else rest
  }

  /** A single name gives its path when it is kept and nothing otherwise. */
  lemma DevPathsOne(d: string, keep: string -> bool)
    ensures DevPaths([d], keep) == if keep(d) then ["/dev/" + d] else []
  {
    assert [d][1..] == [];
  }

  /** Every kept name gives its path as often as the name is listed; nothing
      else is in the answer. */
  lemma {:induction false} DevPathsCounts(devs: seq<string>, keep: string -> bool)
    ensures forall d :: multiset(DevPaths(devs, keep))["/dev/" + d] == if keep(d) then multiset(devs)[d] else 0
  {
    if devs != [] {
      DevPathsCounts(devs[1..], keep);
      assert devs == [devs[0]] + devs[1..];
      forall d | "/dev/" + d == "/dev/" + devs[0]
        ensures d == devs[0]
      {
        assert d == ("/dev/" + d)[5..] == ("/dev/" + devs[0])[5..] == devs[0];
      }
    }
  }

  /** The comprehension keeps listing order: the paths of a listing are the
      paths of its pieces put together. */
  lemma {:induction false} DevPathsAppend(a: seq<string>, b: seq<string>, keep: string -> bool)
    ensures DevPaths(a + b, keep) == DevPaths(a, keep) + DevPaths(b, keep)
  {
    if a == [] {
      assert a + b == b;
    } else {
      assert (a + b)[0] == a[0] && (a + b)[1..] == a[1..] + b;
      DevPathsAppend(a[1..], b, keep);
    }
  }

  /** `ports` as written: it computes the filtered paths but answers with the
      unfiltered listing. */
  function Ports(devs: seq<string>): (r: seq<string>)
    ensures |r| == |devs| && forall i :: 0 <= i < |devs| ==> r[i] == devs[i]
  {
    devs
  }

  /** The paths `ports` computes at its filtering step (and then discards). */
  function FilteredDevs(devs: seq<string>): seq<string> {
    DevPaths(devs, FilterDev)
  }

  /** An entry that no filter accepts still reaches the answer of `ports`. */
  lemma PortsReturnsUnfiltered()
    ensures "null" in Ports(["null"]) && FilteredDevs(["null"]) == []
  {
    var low := Lower("null");
    assert low == "null";
    NoMarkers(low);
    FilterDevIgnoresS0("null");
  }

  /** `ports` as evidently intended: only serial-looking devices, as full paths. */
  function PortsIntended(devs: seq<string>): (r: seq<string>)
    ensures forall p :: p in r <==> exists d :: d in devs && FilterDevIntended(d) && p == "/dev/" + d
    ensures forall d :: multiset(r)["/dev/" + d] == if FilterDevIntended(d) then multiset(devs)[d] else 0
  {
    DevPathsCounts(devs, FilterDevIntended);
    DevPaths(devs, FilterDevIntended)
  }
}
