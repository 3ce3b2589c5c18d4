/** What `srq_pingpong` checks of its options, and what its arrays have room for. */
module StartUp {
  import opened Verbs
  import opened Record

  /** The only check of `num_qp`. */
  predicate Admitted(numQp: int, rxDepth: int) { numQp <= rxDepth }

  /** The arrays of a program with an entry for every queue pair: `ctx->qp`, `my_dest`, the records
      received, and `ctx->pending`. */
  datatype Slots = Slots(qp: seq<int>, mine: seq<Dest>, theirs: seq<Dest>, pending: seq<Mask>) {
    predicate Allocated() { |qp| == |mine| == |theirs| == |pending| == MAX_QP }
  }

  /** A loop over an array stays inside it, or leaves it at an index. */
  datatype Access<+T> = Within(value: T) | Overrun(index: nat)

  /** `for (i = 0; i < n; ++i) a[i] = values[i];` from `i` on. */
  function Fill<T>(a: seq<T>, i: nat, values: seq<T>): (r: Access<seq<T>>)
    ensures r.Within? ==> |r.value| == |a|
    decreases if i < |values| then |values| - i else 0
  {
    if i >= |values| then Within(a)
    else if i >= |a| then Overrun(i)
    else Fill(a[i := values[i]], i + 1, values)
  }

  lemma {:induction false} FillIff<T>(a: seq<T>, i: nat, values: seq<T>)
    requires i <= |values| && i <= |a|
    ensures Fill(a, i, values).Within? <==> |values| <= |a|
    ensures Fill(a, i, values).Within? ==> Fill(a, i, values).value == a[..i] + values[i..] + a[|values|..]
    ensures Fill(a, i, values).Overrun? ==> Fill(a, i, values).index == |a|
    decreases |values| - i
  {
    if i < |values| && i < |a| {
      var b := a[i := values[i]];
      FillIff(b, i + 1, values);
      if |values| <= |a| {
        assert b[..i + 1] == a[..i] + [values[i]];
        assert values[i..] == [values[i]] + values[i + 1..];
        assert b[|values|..] == a[|values|..];
      }
    }
  }

  /** `for (i = 0; i < n; ++i) use(a[i]);` from `i` on. */
  function Visit<T>(a: seq<T>, i: nat, n: nat): Access<()>
    decreases if i < n then n - i else 0
  {
    if i >= n then Within(()) else if i >= |a| then Overrun(i) else Visit(a, i + 1, n)
  }

  lemma {:induction false} VisitIff<T>(a: seq<T>, i: nat, n: nat)
    requires i <= n && i <= |a|
    ensures Visit(a, i, n).Within? <==> n <= |a|
    ensures Visit(a, i, n).Overrun? ==> Visit(a, i, n).index == |a|
    decreases n - i
  {
    if i < n && i < |a| { VisitIff(a, i + 1, n); }
  }

  /** The loops over the queue pairs before the message loop, in the order of the program: creating
      them, filling in the records, reading the records of the other side, setting the masks. */
  function SetUp(s: Slots, qpns: seq<int>, dests: seq<Dest>, masks: seq<Mask>): Access<Slots> {
    match Fill(s.qp, 0, qpns)
    case Overrun(i) => Overrun(i)
    case Within(qp) =>
      match Fill(s.mine, 0, dests)
      case Overrun(i) => Overrun(i)
      case Within(mine) =>
        match Visit(s.theirs, 0, |qpns|)
        case Overrun(i) => Overrun(i)
        case Within(_) =>
          match Fill(s.pending, 0, masks)
          case Overrun(i) => Overrun(i)
          case Within(pending) => Within(s.(qp := qp, mine := mine, pending := pending))
  }

  /** Every queue pair has a slot in every array, and a record of the other side, exactly when there
      are no more than `MAX_QP`; otherwise the first array is overrun. The check plays no part. */
  lemma SetUpIff(s: Slots, qpns: seq<int>, dests: seq<Dest>, masks: seq<Mask>)
    requires s.Allocated() && |qpns| == |dests| == |masks|
    ensures SetUp(s, qpns, dests, masks).Within? <==> |qpns| <= MAX_QP
    ensures SetUp(s, qpns, dests, masks).Overrun? ==> SetUp(s, qpns, dests, masks) == Overrun(MAX_QP)
    ensures |qpns| <= MAX_QP ==>
      var r := SetUp(s, qpns, dests, masks).value;
      && r.Allocated() && r.theirs == s.theirs
      && r.qp[..|qpns|] == qpns && r.mine[..|qpns|] == dests && r.pending[..|qpns|] == masks
  {
    hide Fill, Visit;
    FillIff(s.qp, 0, qpns);
    FillIff(s.mine, 0, dests);
    VisitIff(s.theirs, 0, |qpns|);
    FillIff(s.pending, 0, masks);
  }

  /** Options that the check admits and the arrays do not. */
  lemma AdmittedOverrun(s: Slots, qpns: seq<int>, dests: seq<Dest>, masks: seq<Mask>)
    requires s.Allocated() && |qpns| == |dests| == |masks| == 257
    ensures Admitted(|qpns|, 500) && SetUp(s, qpns, dests, masks) == Overrun(256)
  {
    SetUpIff(s, qpns, dests, masks);
  }

  /** What the check should have been: the sizes that it admits and that have room. */
  lemma AdmittedIsSafeIff(numQp: nat, rxDepth: nat)
    requires Admitted(numQp, rxDepth)
    ensures (forall s: Slots, qpns: seq<int>, dests: seq<Dest>, masks: seq<Mask> ::
               s.Allocated() && |qpns| == |dests| == |masks| == numQp ==> SetUp(s, qpns, dests, masks).Within?)
       <==> numQp <= MAX_QP
  {
    hide SetUp;
    forall s: Slots, qpns: seq<int>, dests: seq<Dest>, masks: seq<Mask> |
      s.Allocated() && |qpns| == |dests| == |masks| == numQp
      ensures SetUp(s, qpns, dests, masks).Within? <==> numQp <= MAX_QP
    {
      SetUpIff(s, qpns, dests, masks);
    }
    var d := Dest(0, 0, 0, []);
    var s := Slots(seq(MAX_QP, _ => 0), seq(MAX_QP, _ => d), seq(MAX_QP, _ => d), seq(MAX_QP, _ => 0));
    var qpns: seq<int> := seq(numQp, _ => 0);
    var dests: seq<Dest> := seq(numQp, _ => d);
    var masks: seq<Mask> := seq(numQp, _ => 0);
    SetUpIff(s, qpns, dests, masks);
  }
}
