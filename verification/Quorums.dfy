/** Byzantine quorum arithmetic shared by the transfer and the slot-seal committees. */
module Quorums {
  import opened Basics

  /** The Byzantine budget f = floor((n-1)/3). */
  function MaxFaulty(n: nat): (f: nat) {
    if n == 0 then 0 else (n - 1) / 3
  }

  /** n - f, and 1 for an empty committee. */
  function Quorum(n: nat): (q: nat) {
    if n == 0 then 1 else n - MaxFaulty(n)
  }

  lemma UnionBound<T>(members: set<T>, a: set<T>, b: set<T>)
    requires a <= members && b <= members
    ensures |a * b| + |members| >= |a| + |b|
  {
    assert |a + b| == |a| + |b| - |a * b|;
    SubsetSize(a + b, members);
  }

  /** Any two quorums of a committee share a member outside the faulty set. */
  lemma QuorumsShareHonest<T>(members: set<T>, faulty: set<T>, a: set<T>, b: set<T>)
    returns (h: T)
    requires a <= members && b <= members
    requires |faulty| <= MaxFaulty(|members|)
    requires |a| >= Quorum(|members|) && |b| >= Quorum(|members|)
    ensures h in a && h in b && h !in faulty
  {
    UnionBound(members, a, b);
    if a * b <= faulty {
      SubsetSize(a * b, faulty);
      assert false;
    }
    h :| h in a * b && h !in faulty;
  }

  // ---- Quorums of two different committees ----

  /** Whatever quorums the two rosters produce, they share a member outside the faulty set. */
  ghost predicate AlwaysMeet<T(!new)>(m1: set<T>, m2: set<T>, faulty: set<T>) {
    forall a: set<T>, b: set<T> :: a <= m1 && b <= m2 && |a| >= Quorum(|m1|) && |b| >= Quorum(|m2|) ==>
              !(a * b <= faulty)
  }

  /** Two committees' quorums always share an honest member exactly when the committees share more honest
      members than both Byzantine budgets together. */
  lemma MeetExactly<T(!new)>(m1: set<T>, m2: set<T>, faulty: set<T>)
    requires m1 != {} && m2 != {}
    ensures AlwaysMeet(m1, m2, faulty) <==> |m1 * m2 - faulty| > MaxFaulty(|m1|) + MaxFaulty(|m2|)
  {
    if |m1 * m2 - faulty| > MaxFaulty(|m1|) + MaxFaulty(|m2|) {
      forall a: set<T>, b: set<T> | a <= m1 && b <= m2 && |a| >= Quorum(|m1|) && |b| >= Quorum(|m2|)
        ensures !(a * b <= faulty)
      {
        MustMeet(m1, m2, faulty, a, b);
      }
    } else {
      var a, b := Apart(m1, m2, faulty);
      assert a * b <= faulty;
    }
  }

  lemma MustMeet<T>(m1: set<T>, m2: set<T>, faulty: set<T>, a: set<T>, b: set<T>)
    requires a <= m1 && b <= m2 && |a| >= Quorum(|m1|) && |b| >= Quorum(|m2|) && m1 != {} && m2 != {}
    requires |m1 * m2 - faulty| > MaxFaulty(|m1|) + MaxFaulty(|m2|)
    ensures !(a * b <= faulty)
  {
    var shared := m1 * m2 - faulty;
    Removed(m1, a);
    Removed(m2, b);
    if a * b <= faulty {
      SubsetSize(shared, (m1 - a) + (m2 - b));
      assert false;
    }
  }

  lemma Removed<T>(s: set<T>, part: set<T>)
    requires part <= s
    ensures |s - part| == |s| - |part|
  {
    assert s == part + (s - part);
  }

  /** Otherwise split the shared honest members between two quorums. */
  lemma Apart<T>(m1: set<T>, m2: set<T>, faulty: set<T>) returns (a: set<T>, b: set<T>)
    requires m1 != {} && m2 != {}
    requires |m1 * m2 - faulty| <= MaxFaulty(|m1|) + MaxFaulty(|m2|)
    ensures a <= m1 && b <= m2 && |a| >= Quorum(|m1|) && |b| >= Quorum(|m2|) && a * b <= faulty
  {
    var shared := m1 * m2 - faulty;
    var missing := Choose(shared, if |shared| <= MaxFaulty(|m1|) then |shared| else MaxFaulty(|m1|));
    a, b := m1 - missing, m2 - (shared - missing);
    Removed(m1, missing);
    Removed(shared, missing);
    Removed(m2, shared - missing);
  }

  lemma {:induction false} Choose<T>(s: set<T>, n: nat) returns (t: set<T>)
    requires n <= |s|
    ensures t <= s && |t| == n
    decreases n
  {
    if n == 0 {
      return {};
    }
    var x :| x in s;
    t := Choose(s - {x}, n - 1);
    t := t + {x};
  }
}
