/**
 * The meaning of a Java `switch` on a string whose every case assigns the
 * same variable: control enters at the first case listing the label (or at
 * `default`, written last) and runs on through the following cases until a
 * `break`, so the value left behind is the one assigned by the last case
 * executed. Several of the code tables rely on this, some of them by
 * accident (a missing `break`).
 */
module JavaSwitch {
  import opened Wrappers

  /** One group of `case` labels, the value its body assigns, and whether the body ends with `break`. */
  datatype Arm<T> = Arm(labels: seq<string>, value: T, breaks: bool)

  /** The first arm at or after index i that lists the label. */
  function EntryFrom<T>(arms: seq<Arm<T>>, x: string, i: nat): (r: Option<nat>)
    requires i <= |arms|
    ensures r.Some? ==> i <= r.value < |arms| && x in arms[r.value].labels
    ensures r.Some? ==> forall j :: i <= j < r.value ==> x !in arms[j].labels
    ensures r.None? ==> forall j :: i <= j < |arms| ==> x !in arms[j].labels
    decreases |arms| - i
  {
    if i == |arms| then None
    else if x in arms[i].labels then Some(i)
    else EntryFrom(arms, x, i + 1)
  }

  /** The value left after running the bodies from arm i on, stopping after the first that breaks. */
  function RunFrom<T>(arms: seq<Arm<T>>, i: nat): T
    requires i < |arms|
    decreases |arms| - i
  {
    if arms[i].breaks || i == |arms| - 1 then arms[i].value else RunFrom(arms, i + 1)
  }

  /** The whole switch; `default` is written last, so a final case without `break` falls into it. */
  function Switch<T>(arms: seq<Arm<T>>, default: T, x: string): T
  {
    var all := arms + [Arm([], default, true)];
    match EntryFrom(all, x, 0)
    case Some(i) => RunFrom(all, i)
    case None => default
  }

  /** Every arm sets a value. */
  predicate AllSet<T>(arms: seq<Arm<Option<T>>>)
  {
    forall i :: 0 <= i < |arms| ==> arms[i].value.Some?
  }

  /** Two tables whose arms all break and set a value, written one after the other. */
  lemma TablesAppend<T>(p: seq<Arm<Option<T>>>, q: seq<Arm<Option<T>>>)
    requires AllBreak(p) && AllSet(p) && AllBreak(q) && AllSet(q)
    ensures AllBreak(p + q) && AllSet(p + q)
  {
    assert forall i :: 0 <= i < |p| ==> (p + q)[i] == p[i];
    assert forall i :: |p| <= i < |p + q| ==> (p + q)[i] == q[i - |p|];
  }

  /** Every arm ends with `break`. */
  predicate AllBreak<T>(arms: seq<Arm<T>>)
  {
    forall i :: 0 <= i < |arms| ==> arms[i].breaks
  }

  /** Without fall-through a switch is a plain table: the first arm listing the label decides, else the default. */
  lemma SwitchWithBreaks<T>(arms: seq<Arm<T>>, default: T, x: string)
    requires AllBreak(arms)
    ensures var e := EntryFrom(arms, x, 0);
      Switch(arms, default, x) == if e.Some? then arms[e.value].value else default
  {
    var all := arms + [Arm([], default, true)];
    var e := EntryFrom(all, x, 0);
    assert forall j :: 0 <= j < |arms| ==> all[j] == arms[j];
    if e.Some? && e.value < |arms| {
      assert EntryFrom(arms, x, 0) == e by {
        EntryAgrees(arms, all, x, 0);
      }
    } else {
      EntryAgrees(arms, all, x, 0);
    }
  }

  /** Appending arms does not change where a label present in the first ones enters. */
  lemma {:induction false} EntryAgrees<T>(arms: seq<Arm<T>>, all: seq<Arm<T>>, x: string, i: nat)
    requires i <= |arms| <= |all|
    requires forall j :: 0 <= j < |arms| ==> all[j] == arms[j]
    requires forall j :: |arms| <= j < |all| ==> x !in all[j].labels
    ensures EntryFrom(all, x, i) == EntryFrom(arms, x, i)
    decreases |arms| - i
  {
    if i < |arms| {
      EntryAgrees(arms, all, x, i + 1);
    } else {
      assert EntryFrom(all, x, i).None?;
    }
  }

  /** Entering an arm without `break` ends with the value of the next arm that breaks. */
  lemma FallsInto<T>(arms: seq<Arm<T>>, i: nat, k: nat)
    requires i <= k < |arms|
    requires forall j :: i <= j < k ==> !arms[j].breaks
    requires arms[k].breaks
    ensures RunFrom(arms, i) == arms[k].value
    decreases k - i
  {
    if i < k {
      FallsInto(arms, i + 1, k);
    }
  }

  /** No arm lists the label. */
  predicate Unlisted<T>(arms: seq<Arm<T>>, x: string)
  {
    forall i :: 0 <= i < |arms| ==> x !in arms[i].labels
  }

  /** The first arm listing the label is the one control enters. */
  lemma EntryIs<T>(arms: seq<Arm<T>>, x: string, k: nat)
    requires k < |arms| && x in arms[k].labels
    requires forall j :: 0 <= j < k ==> x !in arms[j].labels
    ensures EntryFrom(arms, x, 0) == Some(k)
  {
  }

  /** A label first listed by arm k runs the bodies from arm k on. */
  lemma SwitchEntersAt<T>(arms: seq<Arm<T>>, default: T, x: string, k: nat)
    requires k < |arms| && x in arms[k].labels
    requires forall j :: 0 <= j < k ==> x !in arms[j].labels
    ensures Switch(arms, default, x) == RunFrom(arms + [Arm([], default, true)], k)
  {
    var all := arms + [Arm([], default, true)];
    assert all[k] == arms[k];
    assert forall j :: 0 <= j < k ==> all[j] == arms[j];
    EntryIs(all, x, k);
  }

  /** A switch returns the value of one of its arms or its default. */
  lemma SwitchResult<T>(arms: seq<Arm<T>>, default: T, x: string)
    ensures var r := Switch(arms, default, x);
      r == default || r in (set i | 0 <= i < |arms| :: arms[i].value)
  {
    var all := arms + [Arm([], default, true)];
    var e := EntryFrom(all, x, 0);
    if e.Some? {
      RunIsSomeValue(all, e.value);
      var k :| e.value <= k < |all| && RunFrom(all, e.value) == all[k].value;
      if k < |arms| {
        assert all[k] == arms[k];
      }
    }
  }

  lemma {:induction false} RunIsSomeValue<T>(arms: seq<Arm<T>>, i: nat)
    requires i < |arms|
    ensures exists k :: i <= k < |arms| && RunFrom(arms, i) == arms[k].value
    decreases |arms| - i
  {
    if !(arms[i].breaks || i == |arms| - 1) {
      RunIsSomeValue(arms, i + 1);
    }
  }

  /** A property every arm's value and the default share holds of whatever the switch leaves, fall-through or not. */
  lemma SwitchKeeps<T>(arms: seq<Arm<T>>, default: T, x: string, P: T -> bool)
    requires P(default) && forall i :: 0 <= i < |arms| ==> P(arms[i].value)
    ensures P(Switch(arms, default, x))
  {
    SwitchResult(arms, default, x);
  }

  /** An unlisted label runs only the default. */
  lemma SwitchUnlisted<T>(arms: seq<Arm<T>>, default: T, x: string)
    requires Unlisted(arms, x)
    ensures Switch(arms, default, x) == default
  {
    var all := arms + [Arm([], default, true)];
    assert forall j :: 0 <= j < |arms| ==> all[j] == arms[j];
  }

  /** Running from the same index over arm lists that agree from there on gives the same value. */
  lemma {:induction false} RunAgrees<T>(a: seq<Arm<T>>, b: seq<Arm<T>>, i: nat)
    requires i < |a| == |b|
    requires forall j :: i <= j < |a| ==> a[j] == b[j]
    ensures RunFrom(a, i) == RunFrom(b, i)
    decreases |a| - i
  {
    if !(a[i].breaks || i == |a| - 1) {
      RunAgrees(a, b, i + 1);
    }
  }

  /**
   * Two switches that differ only in their first m arms, none of which lists
   * the label, agree on it.
   */
  lemma SwitchAgreeAfter<T>(a: seq<Arm<T>>, b: seq<Arm<T>>, default: T, x: string, m: nat)
    requires m <= |a| == |b|
    requires forall j :: m <= j < |a| ==> a[j] == b[j]
    requires forall j :: 0 <= j < m ==> x !in a[j].labels && x !in b[j].labels
    ensures Switch(a, default, x) == Switch(b, default, x)
  {
    var d := Arm([], default, true);
    var allA, allB := a + [d], b + [d];
    assert forall j :: 0 <= j < |a| ==> allA[j] == a[j] && allB[j] == b[j];
    assert forall j :: m <= j < |allA| ==> allA[j] == allB[j];
    var e := EntryFrom(allA, x, 0);
    if e.Some? {
      EntryIs(allB, x, e.value);
      RunAgrees(allA, allB, e.value);
    } else {
      assert EntryFrom(allB, x, 0).None? by {
        if EntryFrom(allB, x, 0).Some? {
          EntryIs(allA, x, EntryFrom(allB, x, 0).value);
        }
      }
    }
  }

  /** A label listed by the first arm, which breaks, yields that arm's value. */
  lemma SwitchAtFront<T>(q: seq<Arm<T>>, default: T, x: string)
    requires |q| > 0 && x in q[0].labels && q[0].breaks
    ensures Switch(q, default, x) == q[0].value
  {
    SwitchEntersAt(q, default, x, 0);
    assert (q + [Arm([], default, true)])[0] == q[0];
  }

  /** Without fall-through, a label first listed by arm k yields that arm's value. */
  lemma SwitchBreaksAt<T>(arms: seq<Arm<T>>, default: T, x: string, k: nat)
    requires AllBreak(arms)
    requires k < |arms| && x in arms[k].labels
    requires forall j :: 0 <= j < k ==> x !in arms[j].labels
    ensures Switch(arms, default, x) == arms[k].value
  {
    SwitchEntersAt(arms, default, x, k);
    assert (arms + [Arm([], default, true)])[k] == arms[k];
  }

  /** A switch whose cases all set a value and break, and whose default sets none, sets one exactly for listed labels. */
  lemma SwitchSetsIffListed<T>(arms: seq<Arm<Option<T>>>, x: string)
    requires AllBreak(arms)
    requires AllSet(arms)
    ensures Switch(arms, None, x).Some? <==> !Unlisted(arms, x)
  {
    SwitchWithBreaks(arms, None, x);
    if !Unlisted(arms, x) {
      var k :| 0 <= k < |arms| && x in arms[k].labels;
      assert EntryFrom(arms, x, 0).Some?;
    }
  }

  lemma {:induction false} RunShift<T>(p: seq<Arm<T>>, q: seq<Arm<T>>, i: nat)
    requires i < |q|
    ensures RunFrom(p + q, |p| + i) == RunFrom(q, i)
    decreases |q| - i
  {
    assert (p + q)[|p| + i] == q[i];
    if !(q[i].breaks || i == |q| - 1) {
      RunShift(p, q, i + 1);
    }
  }

  /** The first k cases of a table, none listing the label, can be dropped. */
  lemma SwitchSkipPrefix<T>(p: seq<Arm<T>>, q: seq<Arm<T>>, default: T, x: string, k: nat)
    requires k <= |p| && Unlisted(p[..k], x)
    ensures Switch(p + q, default, x) == Switch(p[k..] + q, default, x)
  {
    assert p + q == p[..k] + (p[k..] + q);
    SwitchSkip(p[..k], p[k..] + q, default, x);
  }

  /** Cases that do not list the label can be dropped from the front of a switch. */
  lemma SwitchSkip<T>(p: seq<Arm<T>>, q: seq<Arm<T>>, default: T, x: string)
    requires Unlisted(p, x)
    ensures Switch(p + q, default, x) == Switch(q, default, x)
  {
    var d := Arm([], default, true);
    var all1, all2 := p + q + [d], q + [d];
    assert all1 == p + all2;
    assert forall j :: 0 <= j < |all2| ==> all1[|p| + j] == all2[j];
    var e := EntryFrom(all1, x, 0);
    if e.Some? {
      assert e.value >= |p|;
      var k := e.value - |p|;
      assert forall j :: 0 <= j < k ==> all2[j] == all1[|p| + j];
      EntryIs(all2, x, k);
      RunShift(p, all2, k);
    } else {
      assert EntryFrom(all2, x, 0).None?;
    }
  }
}
