/** Facts about sequences without repetition and about sets that split another set. */
module Collections {

  function Elems(q: seq<nat>): set<nat>
  {
    set t | t in q
  }

  ghost predicate NoRepeats(q: seq<nat>)
  {
    forall i, j :: 0 <= i < j < |q| ==> q[i] != q[j]
  }

  lemma NoRepeatsAppend(p: seq<nat>, q: seq<nat>)
    requires NoRepeats(p) && NoRepeats(q) && forall t :: t in q ==> t !in p
    ensures NoRepeats(p + q)
  {
    forall i, j | 0 <= i < j < |p + q|
      ensures (p + q)[i] != (p + q)[j]
    {
      if i < |p| <= j {
        assert q[j - |p|] in q && p[i] in p;
      }
    }
  }

  lemma ElemsPop(q: seq<nat>)
    requires q != [] && q[0] !in q[1..]
    ensures Elems(q[1..]) == Elems(q) - {q[0]} && q[0] in Elems(q)
  {
  }

  lemma ElemsAppend(q: seq<nat>, t: nat)
    ensures Elems(q + [t]) == Elems(q) + {t}
  {
  }

  /** `all` splits into four parts. */
  ghost predicate Partition(all: set<nat>, a: set<nat>, b: set<nat>, c: set<nat>, d: set<nat>)
  {
    && all == a + b + c + d
    && a !! b !! c !! d
  }

  lemma PartitionNew(all: set<nat>, a: set<nat>, b: set<nat>, c: set<nat>, d: set<nat>, t: nat)
    requires Partition(all, a, b, c, d) && t !in all
    ensures Partition(all + {t}, a + {t}, b, c, d)
  {
  }

  lemma PartitionLeave(all: set<nat>, a: set<nat>, b: set<nat>, c: set<nat>, d: set<nat>, t: nat)
    requires Partition(all, a, b, c, d) && t in a
    ensures Partition(all, a - {t}, b + {t}, c, d)
    ensures Partition(all, a - {t}, b, c + {t}, d)
  {
  }

  lemma PartitionEnter(all: set<nat>, a: set<nat>, b: set<nat>, c: set<nat>, d: set<nat>, t: nat)
    requires Partition(all, a, b, c, d) && t in b
    ensures Partition(all, a + {t}, b - {t}, c, d)
  {
  }

  lemma PartitionAnnounce(all: set<nat>, a: set<nat>, b: set<nat>, c: set<nat>, d: set<nat>, b': set<nat>, c': set<nat>)
    requires Partition(all, a, b, c, d) && b + c == b' + c' && b' !! c'
    ensures Partition(all, a, b', c', d)
  {
    forall t
      ensures t in b' || t in c' <==> t in b || t in c
    {
      assert t in b + c <==> t in b' + c';
    }
  }

  lemma PartitionPop(all: set<nat>, a: set<nat>, b: set<nat>, c: set<nat>, d: set<nat>, t: nat)
    requires Partition(all, a, b, c, d) && t in c
    ensures Partition(all, a, b, c - {t}, d + {t})
  {
  }
}
