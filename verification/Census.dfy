/** The process table against the tasks of the session: who is alive, who owns what, whose child
    is whose. */
module Census {
  import opened Base
  import opened Kernel

  /** Pids rise along the table, every parent is older than its child, and no pid is yet to come. */
  ghost predicate Ranked(table: seq<Record>, nextPid: nat) {
    && nextPid >= 1
    && (forall i, j :: 0 <= i < j < |table| ==> table[i].pid < table[j].pid)
    && (forall i :: 0 <= i < |table| ==> 1 <= table[i].pid < nextPid && 0 <= table[i].ppid < table[i].pid)
  }

  /** While process 1 lives, every other record, living or zombie, has a living parent. */
  ghost predicate Parented(table: seq<Record>) {
    Alive(table, 1) ==> forall i :: 0 <= i < |table| && table[i].pid != 1 ==> Alive(table, table[i].ppid)
  }

  ghost predicate TableOk(table: seq<Record>, nextPid: nat) {
    Ranked(table, nextPid) && Parented(table)
  }

  lemma {:induction false} FindAt(table: seq<Record>, nextPid: nat, i: nat)
    requires Ranked(table, nextPid) && i < |table|
    ensures IndexOf(table, table[i].pid) == i && Find(table, table[i].pid) == Some(table[i])
  {
    if i > 0 {
      FindAt(table[1..], nextPid, i - 1);
    }
  }

  lemma {:induction false} SamePids(a: seq<Record>, b: seq<Record>, x: int)
    requires |a| == |b| && forall i :: 0 <= i < |a| ==> a[i].pid == b[i].pid
    ensures IndexOf(a, x) == IndexOf(b, x)
  {
    if |a| > 0 {
      SamePids(a[1..], b[1..], x);
    }
  }

  lemma AliveIn(table: seq<Record>, nextPid: nat, x: int)
    requires Ranked(table, nextPid) && Alive(table, x)
    ensures 1 <= x < nextPid && IndexOf(table, x) < |table| && table[IndexOf(table, x)].exit.None?
  {
  }

  /** Same pids, parents and exits, position by position. */
  ghost predicate SameShape(a: seq<Record>, b: seq<Record>) {
    && |a| == |b|
    && forall i :: 0 <= i < |a| ==> a[i].pid == b[i].pid && a[i].ppid == b[i].ppid && a[i].exit == b[i].exit
  }

  lemma SameIndex(a: seq<Record>, b: seq<Record>, x: int)
    requires SameShape(a, b)
    ensures IndexOf(a, x) == IndexOf(b, x)
    ensures Alive(a, x) == Alive(b, x)
  {
    SamePids(a, b, x);
  }

  lemma ShapeKeeps(a: seq<Record>, b: seq<Record>, nextPid: nat)
    requires SameShape(a, b) && TableOk(a, nextPid)
    ensures TableOk(b, nextPid) && forall x :: Alive(b, x) == Alive(a, x)
  {
    forall x ensures Alive(b, x) == Alive(a, x) {
      SameIndex(a, b, x);
    }
  }

  lemma WithShape(table: seq<Record>, pid: int, r: Record)
    requires var f := Find(table, pid); f.Some? ==> r.pid == pid && r.ppid == f.value.ppid && r.exit == f.value.exit
    ensures SameShape(table, WithRecord(table, pid, r))
  {
  }

  lemma {:induction false} WithoutCuts(table: seq<Record>, nextPid: nat, i: nat)
    requires Ranked(table, nextPid) && i < |table|
    ensures Without(table, table[i].pid) == table[..i] + table[i + 1..]
  {
    var pid := table[i].pid;
    if i == 0 {
      WithoutAbsent(table[1..], pid);
    } else {
      assert Ranked(table[1..], nextPid);
      WithoutCuts(table[1..], nextPid, i - 1);
      assert table[..i] == [table[0]] + table[1..][..i - 1];
    }
  }

  lemma {:induction false} WithoutAbsent(table: seq<Record>, pid: int)
    requires forall i :: 0 <= i < |table| ==> table[i].pid != pid
    ensures Without(table, pid) == table
  {
    if |table| > 0 {
      WithoutAbsent(table[1..], pid);
    }
  }

  lemma CutRanked(table: seq<Record>, nextPid: nat, i: nat)
    requires Ranked(table, nextPid) && i < |table|
    ensures var after := table[..i] + table[i + 1..];
      && Ranked(after, nextPid)
      && forall j :: 0 <= j < |after| ==> after[j] in table && after[j].pid != table[i].pid
  {
    var after := table[..i] + table[i + 1..];
    forall j | 0 <= j < |after| ensures after[j] in table && after[j].pid != table[i].pid {
      assert after[j] == if j < i then table[j] else table[j + 1];
    }
  }

  /** Removing one pid's record removes that record and no other. */
  lemma WithoutFinds(table: seq<Record>, nextPid: nat, pid: int)
    requires Ranked(table, nextPid)
    ensures var after := Without(table, pid);
      && Ranked(after, nextPid)
      && (forall i :: 0 <= i < |after| ==> after[i] in table && after[i].pid != pid)
      && forall x :: Find(after, x) == if x == pid then None else Find(table, x)
  {
    hide Ranked, IndexOf;
    var i := IndexOf(table, pid);
    var after := Without(table, pid);
    if i == |table| {
      WithoutAbsent(table, pid);
    } else {
      WithoutCuts(table, nextPid, i);
      CutRanked(table, nextPid, i);
      forall x ensures Find(after, x) == if x == pid then None else Find(table, x) {
        CutFind(table, nextPid, i, x);
      }
    }
  }

  lemma CutFind(table: seq<Record>, nextPid: nat, i: nat, x: int)
    requires Ranked(table, nextPid) && i < |table|
    ensures Find(table[..i] + table[i + 1..], x) == if x == table[i].pid then None else Find(table, x)
  {
    hide IndexOf;
    var after := table[..i] + table[i + 1..];
    CutRanked(table, nextPid, i);
    var j := IndexOf(table, x);
    if x != table[i].pid && j < |table| {
      assert after[if j < i then j else j - 1] == table[j];
      FindAt(after, nextPid, if j < i then j else j - 1);
    } else {
      var k := IndexOf(after, x);
      assert k < |after| ==> after[k] in table;
    }
  }

  lemma ReparentedFinds(table: seq<Record>, nextPid: nat, dead: int)
    requires Ranked(table, nextPid) && (exists i :: 0 <= i < |table| && table[i].pid == dead)
    ensures var after := Reparented(table, dead);
      && Ranked(after, nextPid)
      && forall x :: IndexOf(after, x) == IndexOf(table, x) && Alive(after, x) == Alive(table, x)
  {
    hide IndexOf;
    var after := Reparented(table, dead);
    forall x ensures IndexOf(after, x) == IndexOf(table, x) && Alive(after, x) == Alive(table, x) {
      SamePids(after, table, x);
      var i := IndexOf(table, x);
      assert i < |table| ==> after[i] == Adopted(table[i], dead);
    }
  }

  /** Marking the record of a living process ended takes exactly that process off the living. */
  lemma EndedFinds(table: seq<Record>, nextPid: nat, pid: int, status: int)
    requires Ranked(table, nextPid) && Alive(table, pid)
    ensures var after := WithRecord(table, pid, Ended(Find(table, pid).value, status));
      && Ranked(after, nextPid) && |after| == |table|
      && (forall x :: IndexOf(after, x) == IndexOf(table, x))
      && (forall x :: Alive(after, x) == (x != pid && Alive(table, x)))
  {
    var after := WithRecord(table, pid, Ended(Find(table, pid).value, status));
    forall x ensures IndexOf(after, x) == IndexOf(table, x) && Alive(after, x) == (x != pid && Alive(table, x)) {
      SamePids(after, table, x);
    }
  }

  /** A death takes exactly that process off the living, gives its children a living parent, and
      leaves a zombie only under a living parent. */
  lemma ExitKeeps(table: seq<Record>, nextPid: nat, pid: int, status: int)
    requires TableOk(table, nextPid) && Alive(table, pid)
    ensures var after := ExitTable(table, pid, status);
      && TableOk(after, nextPid)
      && forall x :: Alive(after, x) == (x != pid && Alive(table, x))
  {
    hide Reparented, WithRecord, Without;
    var me := Find(table, pid).value;
    var ended := WithRecord(table, pid, Ended(me, status));
    EndedFinds(table, nextPid, pid, status);
    assert ended[IndexOf(ended, pid)].pid == pid;
    var moved := Reparented(ended, pid);
    ReparentedFinds(ended, nextPid, pid);
    assert forall x :: Alive(moved, x) == (x != pid && Alive(table, x));
    MovedParents(table, nextPid, pid, status);
    if Alive(moved, me.ppid) {
      RaisedKeeps(moved, nextPid, me.ppid, SIGCHLD);
    } else {
      WithoutFinds(moved, nextPid, pid);
      var after := Without(moved, pid);
      assert forall x :: Alive(after, x) == (x != pid && Alive(moved, x));
    }
  }

  lemma RaisedShape(table: seq<Record>, pid: int, sig: int)
    ensures SameShape(table, Raised(table, pid, sig))
  {
    if Find(table, pid).Some? {
      WithShape(table, pid, RaisedOn(Find(table, pid).value, sig));
    }
  }

  lemma RaisedKeeps(table: seq<Record>, nextPid: nat, pid: int, sig: int)
    requires TableOk(table, nextPid)
    ensures TableOk(Raised(table, pid, sig), nextPid)
    ensures forall x :: Alive(Raised(table, pid, sig), x) == Alive(table, x)
  {
    RaisedShape(table, pid, sig);
    ShapeKeeps(table, Raised(table, pid, sig), nextPid);
  }

  /** After adoption every record left by a process other than 1 has a living parent, the dead
      process's own record aside. */
  lemma MovedParents(table: seq<Record>, nextPid: nat, pid: int, status: int)
    requires TableOk(table, nextPid) && Alive(table, pid)
    ensures
      var ended := WithRecord(table, pid, Ended(Find(table, pid).value, status));
      var moved := Reparented(ended, pid);
      && (Alive(moved, 1) ==> forall i :: 0 <= i < |moved| && moved[i].pid != 1 ==> Alive(moved, moved[i].ppid))
      && (Find(table, pid).value.ppid != pid)
  {
    var ended := WithRecord(table, pid, Ended(Find(table, pid).value, status));
    var moved := Reparented(ended, pid);
    EndedFinds(table, nextPid, pid, status);
    assert ended[IndexOf(ended, pid)].pid == pid;
    ReparentedFinds(ended, nextPid, pid);
    if Alive(moved, 1) {
      forall i | 0 <= i < |moved| && moved[i].pid != 1 ensures Alive(moved, moved[i].ppid) {
        assert moved[i] == Adopted(ended[i], pid);
        assert ended[i].pid == table[i].pid && ended[i].ppid == table[i].ppid;
        assert Alive(table, table[i].ppid);
      }
    }
  }

  /** A new record, under a living parent, with the next pid. */
  lemma ForkKeeps(table: seq<Record>, nextPid: nat, child: Record)
    requires TableOk(table, nextPid) && child.pid == nextPid && child.exit.None?
    requires Alive(table, child.ppid)
    ensures TableOk(table + [child], nextPid + 1)
    ensures forall x :: Alive(table + [child], x) == (x == nextPid || Alive(table, x))
  {
    var after := table + [child];
    AliveIn(table, nextPid, child.ppid);
    assert Ranked(after, nextPid + 1);
    forall x ensures Alive(after, x) == (x == nextPid || Alive(table, x)) {
      AppendFind(table, child, x);
    }
  }

  lemma {:induction false} AppendFind(table: seq<Record>, child: Record, x: int)
    requires forall i :: 0 <= i < |table| ==> table[i].pid != child.pid
    ensures Find(table + [child], x) == if x == child.pid then Some(child) else Find(table, x)
  {
    if |table| > 0 {
      AppendFind(table[1..], child, x);
      assert (table + [child])[1..] == table[1..] + [child];
    }
  }

  /** Collecting a zombie changes nothing about the living or their parents. */
  lemma ReapKeeps(table: seq<Record>, nextPid: nat, pid: int)
    requires TableOk(table, nextPid) && !Alive(table, pid)
    ensures TableOk(Without(table, pid), nextPid)
    ensures forall x :: Alive(Without(table, pid), x) == Alive(table, x)
  {
    WithoutFinds(table, nextPid, pid);
    var after := Without(table, pid);
    assert forall x :: Alive(after, x) == Alive(table, x);
    if Alive(after, 1) {
      forall i | 0 <= i < |after| && after[i].pid != 1 ensures Alive(after, after[i].ppid) {
        var j :| 0 <= j < |table| && table[j] == after[i];
      }
    }
  }
}
