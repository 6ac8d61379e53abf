/** The per-page loops of a retention run: which events of a page have expired, which
    expiries their payloads get, and whether an export is the page that was asked for. */
module RetentionPage {
  import opened Common
  import opened Objects
  import opened IdCodec
  import opened TextCodec
  import Digits
  import Policy
  import Protocol

  // ---- Classifying a page ----

  function ExpiredOf(c: Policy.Config, page: seq<Record>, now: int): seq<Record>
  {
    if page == [] then []
    else
      var n := |page| - 1;
      ExpiredOf(c, page[..n], now) + (if Policy.Expired(c, page[n], now) then [page[n]] else [])
  }

  function MatchedIn(c: Policy.Config, page: seq<Record>): nat
  {
    if page == [] then 0
    else
      var n := |page| - 1;
      MatchedIn(c, page[..n]) + (if Policy.EventExpiry(c, page[n]).Some? then 1 else 0)
  }

  lemma {:induction false} ExpiredOfConcat(c: Policy.Config, a: seq<Record>, b: seq<Record>, now: int)
    ensures ExpiredOf(c, a + b, now) == ExpiredOf(c, a, now) + ExpiredOf(c, b, now)
    ensures MatchedIn(c, a + b) == MatchedIn(c, a) + MatchedIn(c, b)
  {
    if b == [] {
      assert a + b == a;
    } else {
      var n := |b| - 1;
      ExpiredOfConcat(c, a, b[..n], now);
      assert (a + b)[..|a + b| - 1] == a + b[..n];
    }
  }

  lemma {:induction false} ExpiredOfFacts(c: Policy.Config, page: seq<Record>, now: int)
    ensures forall r :: r in ExpiredOf(c, page, now) <==> r in page && Policy.Expired(c, r, now)
  {
    if page != [] {
      var n := |page| - 1;
      ExpiredOfFacts(c, page[..n], now);
      assert page == page[..n] + [page[n]];
    }
  }

  /** The inner loop: raise the entry of each payload that has an expiry. */
  method AddTimes(c: Policy.Config, v: Record, times: Policy.Times) returns (out: Policy.Times)
    ensures out == Policy.LinkTimes(c, v, v.links, times)
  {
    out := times;
    for j := 0 to |v.links|
      invariant Policy.LinkTimes(c, v, v.links[j..], out) == Policy.LinkTimes(c, v, v.links, times)
    {
      assert v.links[j..][1..] == v.links[j + 1..];
      var at := Policy.PayloadExpiry(c, v, v.links[j]);
      if at.Some? {
        var k := SlotOf(v.links[j].ref);
        var known := if k in out then out[k] else ZERO_TIME;
        if at.value > known {
          out := out[k := at.value];
        }
      }
    }
    assert v.links[|v.links|..] == [];
  }

  method Classify(c: Policy.Config, page: seq<Record>, now: int)
    returns (eligible: seq<Record>, times: Policy.Times, matched: nat)
    ensures eligible == ExpiredOf(c, page, now)
    ensures times == Policy.PageTimes(c, eligible)
    ensures matched == MatchedIn(c, page)
  {
    eligible, times, matched := [], map[], 0;
    for i := 0 to |page|
      invariant eligible == ExpiredOf(c, page[..i], now)
      invariant times == Policy.PageTimes(c, eligible)
      invariant matched == MatchedIn(c, page[..i])
    {
      assert page[..i + 1][..i] == page[..i];
      var expiry := Policy.EventExpiry(c, page[i]);
      if expiry.Some? {
        matched := matched + 1;
        if expiry.value <= now {
          assert (eligible + [page[i]])[..|eligible|] == eligible;
          times := AddTimes(c, page[i], times);
          eligible := eligible + [page[i]];
        }
      }
    }
    assert page[..|page|] == page;
  }

  // ---- sameArchiveEvents ----

  function ToSet(xs: seq<string>): set<string>
  {
    set x | x in xs
  }

  ghost predicate NoRepeats(xs: seq<string>)
  {
    forall i, j :: 0 <= i < j < |xs| ==> xs[i] != xs[j]
  }

  lemma {:induction false} ToSetSize(xs: seq<string>)
    ensures |ToSet(xs)| <= |xs|
    ensures |ToSet(xs)| == |xs| <==> NoRepeats(xs)
  {
    if xs != [] {
      var n := |xs| - 1;
      var init, x := xs[..n], xs[n];
      ToSetSize(init);
      assert ToSet(xs) == ToSet(init) + {x};
      assert NoRepeats(xs) <==> NoRepeats(init) && x !in init;
    }
  }

  /** Short identifiers are padded to 32 digits. */
  function Pad(id: string): string
  {
    if |id| < 32 then seq(32 - |id|, i => '0') + id else id
  }

  function PadAll(ids: seq<string>): seq<string>
  {
    seq(|ids|, i requires 0 <= i < |ids| => Pad(ids[i]))
  }

  lemma NotWanted(records: seq<string>, wanted: seq<string>, i: nat)
    requires i < |records| && records[i] !in ToSet(wanted) - ToSet(records[..i])
    ensures !(NoRepeats(records) && ToSet(records) == ToSet(wanted))
  {
  }

  lemma NothingYet(xs: seq<string>)
    ensures ToSet(xs[..0]) == {} && NoRepeats(xs[..0])
  {
  }

  lemma OneMore(xs: seq<string>, i: nat)
    requires i < |xs|
    ensures ToSet(xs[..i + 1]) == ToSet(xs[..i]) + {xs[i]}
    ensures NoRepeats(xs[..i + 1]) <==> NoRepeats(xs[..i]) && xs[i] !in ToSet(xs[..i])
  {
  }

  /** Accepts exactly when neither list repeats an event and both name the same events. */
  method SameArchiveEvents(records: seq<string>, eligible: seq<string>) returns (same: bool)
    ensures same <==> NoRepeats(records) && NoRepeats(PadAll(eligible)) && ToSet(records) == ToSet(PadAll(eligible))
  {
    hide Pad, ToSet, NoRepeats;
    ghost var padded := PadAll(eligible);
    ToSetSize(records);
    ToSetSize(padded);
    if |records| != |eligible| {
      return false;
    }
    var want: set<string> := {};
    NothingYet(padded);
    NothingYet(records);
    for i := 0 to |eligible|
      invariant want == ToSet(padded[..i])
    {
      OneMore(padded, i);
      want := want + {Pad(eligible[i])};
    }
    assert padded[..|eligible|] == padded;
    for i := 0 to |records|
      invariant ToSet(records[..i]) <= ToSet(padded)
      invariant want == ToSet(padded) - ToSet(records[..i])
      invariant NoRepeats(records[..i])
    {
      if records[i] !in want {
        NotWanted(records, padded, i);
        return false;
      }
      OneMore(records, i);
      want := want - {records[i]};
    }
    assert records[..|records|] == records;
    same := want == {};
  }

  // ---- Identifiers as they are compared ----

  function HexId(id: Id): string
  {
    Digits.DigitsBelow(id, 16, 256);
    HexText(Digits.Digits(id, 16, 256))
  }

  function HexIds(rs: seq<Record>): seq<string>
  {
    seq(|rs|, i requires 0 <= i < |rs| => HexId(rs[i].id))
  }

  lemma HexIdInjective(a: Id, b: Id)
    ensures |HexId(a)| == 32 && (HexId(a) == HexId(b) <==> a == b)
  {
    Powers();
    Digits.DigitsBelow(a, 16, 256);
    Digits.DigitsBelow(b, 16, 256);
    UnhexHex(Digits.Digits(a, 16, 256));
    UnhexHex(Digits.Digits(b, 16, 256));
    Digits.ValueOfDigits(a, 16, 256);
    Digits.ValueOfDigits(b, 16, 256);
  }

  /** On stored identifiers the text comparison is the comparison the protocol needs. */
  lemma SameTextsMeanSameIds(records: seq<Record>, eligible: seq<Record>)
    ensures PadAll(HexIds(eligible)) == HexIds(eligible)
    ensures NoRepeats(HexIds(records)) && NoRepeats(HexIds(eligible)) && ToSet(HexIds(records)) == ToSet(HexIds(eligible))
            <==> Protocol.SameIds(Ids(records), Ids(eligible))
  {
    forall i | 0 <= i < |eligible| ensures Pad(HexIds(eligible)[i]) == HexIds(eligible)[i] {
      HexIdInjective(eligible[i].id, 0);
    }
    DistinctTexts(records);
    DistinctTexts(eligible);
    SubsetTexts(records, eligible);
    SubsetTexts(eligible, records);
  }

  lemma DistinctTexts(rs: seq<Record>)
    ensures NoRepeats(HexIds(rs)) <==> Distinct(Ids(rs))
  {
    forall i, j | 0 <= i < j < |rs| ensures HexIds(rs)[i] == HexIds(rs)[j] <==> Ids(rs)[i] == Ids(rs)[j] {
      HexIdInjective(rs[i].id, rs[j].id);
    }
  }

  lemma SubsetTexts(a: seq<Record>, b: seq<Record>)
    ensures ToSet(HexIds(a)) <= ToSet(HexIds(b)) <==> forall id :: id in Ids(a) ==> id in Ids(b)
  {
    forall i, j | 0 <= i < |a| && 0 <= j < |b| ensures HexIds(a)[i] == HexIds(b)[j] <==> Ids(a)[i] == Ids(b)[j] {
      HexIdInjective(a[i].id, b[j].id);
    }
    if ToSet(HexIds(a)) <= ToSet(HexIds(b)) {
      forall i | 0 <= i < |a| ensures Ids(a)[i] in Ids(b) {
        assert HexIds(a)[i] in ToSet(HexIds(b));
        var j :| 0 <= j < |b| && HexIds(b)[j] == HexIds(a)[i];
        assert Ids(b)[j] == Ids(a)[i];
      }
    }
    if forall id :: id in Ids(a) ==> id in Ids(b) {
      forall x | x in ToSet(HexIds(a)) ensures x in ToSet(HexIds(b)) {
        var i :| 0 <= i < |a| && HexIds(a)[i] == x;
        assert Ids(a)[i] in Ids(b);
        var j :| 0 <= j < |b| && Ids(b)[j] == Ids(a)[i];
        assert HexIds(b)[j] == x;
      }
    }
  }
}
