/** Sums over the loan book, and what storing a loan does to them. */
module BookProofs {
  import opened Common
  import opened LoanModel
  import opened LoanIndex
  import opened ProtocolModel

  /** The quantities the protocol's running totals are compared with. */
  datatype Measure =
    | DebtOf(borrower: Address)   // what a borrower owes on Active loans
    | Escrowed                    // guarantees of Pending and Active loans
    | Forfeited                   // guarantees of Defaulted loans
    | Principal                   // principal outstanding on Active loans
    | Exposure                    // the part of it no guarantee covers
    | Running                     // the number of Active loans

  function Value(m: Measure, l: Loan): int {
    match m
    case DebtOf(b) => if l.status.Active? && l.borrower == b then l.remaining else 0
    case Escrowed => if l.status.Pending? || l.status.Active? then l.guarantee else 0
    case Forfeited => if l.status.Defaulted? then l.guarantee else 0
    case Principal => if l.status.Active? then l.principal else 0
    case Exposure => if l.status.Active? then Shortfall(l) else 0
    case Running => if l.status.Active? then 1 else 0
  }

  /** The measure summed over the loans numbered 1 to n. */
  function Sum(m: Measure, loans: map<nat, Loan>, n: nat): int {
    if n == 0 then 0
    else Sum(m, loans, n - 1) + if n in loans then Value(m, loans[n]) else 0
  }

  function Total(m: Measure, b: Book): int {
    Sum(m, b.loans, b.counter)
  }

  /** The ids of a borrower's loans among those numbered 1 to n, in creation order. */
  function IdsOf(loans: map<nat, Loan>, b: Address, n: nat): seq<nat> {
    if n == 0 then []
    else IdsOf(loans, b, n - 1) + if n in loans && loans[n].borrower == b then [n] else []
  }

  /** Loans are numbered without gaps, every record is in order, and every borrower's running debt
      is the sum of its Active balances. */
  ghost predicate BookOk(b: Book) {
    && (forall id :: id in b.loans <==> 1 <= id <= b.counter)
    && (forall id :: id in b.loans ==> b.loans[id].id == id && LoanOk(b.loans[id]))
    && (forall a :: Debt(b, a) == Total(DebtOf(a), b))
  }

  /** A borrower's index lists exactly its loans, as long as its page numbers last. */
  ghost predicate Indexed(b: Book, a: Address) {
    |IdsOf(b.loans, a, b.counter)| <= CAPACITY ==> Represents(b.index, a, IdsOf(b.loans, a, b.counter))
  }

  ghost predicate IndexOk(b: Book) {
    forall a {:trigger Indexed(b, a)} :: Indexed(b, a)
  }

  lemma {:induction false} SumFrame(m: Measure, loans: map<nat, Loan>, loans': map<nat, Loan>, n: nat)
    requires forall i :: 1 <= i <= n ==> (i in loans <==> i in loans')
    requires forall i :: 1 <= i <= n && i in loans ==> loans[i] == loans'[i]
    ensures Sum(m, loans, n) == Sum(m, loans', n)
  {
    if n > 0 {
      SumFrame(m, loans, loans', n - 1);
    }
  }

  lemma {:induction false} SumReplace(m: Measure, loans: map<nat, Loan>, id: nat, l: Loan, n: nat)
    requires id in loans && 1 <= id <= n
    ensures Sum(m, loans[id := l], n) == Sum(m, loans, n) - Value(m, loans[id]) + Value(m, l)
  {
    if id == n {
      SumFrame(m, loans, loans[id := l], n - 1);
    } else {
      SumReplace(m, loans, id, l, n - 1);
    }
  }

  /** Every term of a measure is non-negative, so no loan exceeds the total. */
  lemma {:induction false} SumBounds(m: Measure, loans: map<nat, Loan>, n: nat)
    requires forall i :: i in loans ==> LoanOk(loans[i])
    ensures 0 <= Sum(m, loans, n)
    ensures forall i :: i in loans && 1 <= i <= n ==> 0 <= Value(m, loans[i]) <= Sum(m, loans, n)
  {
    if n > 0 {
      SumBounds(m, loans, n - 1);
    }
  }

  /** Summing a smaller measure gives a smaller total. */
  lemma {:induction false} SumMonotone(m: Measure, m': Measure, loans: map<nat, Loan>, n: nat)
    requires forall i :: i in loans ==> Value(m, loans[i]) <= Value(m', loans[i])
    ensures Sum(m, loans, n) <= Sum(m', loans, n)
  {
    if n > 0 {
      SumMonotone(m, m', loans, n - 1);
    }
  }

  lemma {:induction false} IdsFrame(loans: map<nat, Loan>, loans': map<nat, Loan>, a: Address, n: nat)
    requires forall i :: 1 <= i <= n ==> (i in loans <==> i in loans')
    requires forall i :: 1 <= i <= n && i in loans ==> loans[i].borrower == loans'[i].borrower
    ensures IdsOf(loans, a, n) == IdsOf(loans', a, n)
  {
    if n > 0 {
      IdsFrame(loans, loans', a, n - 1);
    }
  }

  /** The listed ids are the borrower's loans, each once, oldest first. */
  lemma {:induction false} IdsResolve(loans: map<nat, Loan>, a: Address, n: nat)
    ensures
      var ids := IdsOf(loans, a, n);
      && |ids| <= n
      && (forall i :: 0 <= i < |ids| ==> 1 <= ids[i] <= n && ids[i] in loans && loans[ids[i]].borrower == a)
      && (forall i, j :: 0 <= i < j < |ids| ==> ids[i] < ids[j])
      && (forall id :: 1 <= id <= n && id in loans && loans[id].borrower == a ==> id in ids)
  {
    if n > 0 {
      IdsResolve(loans, a, n - 1);
    }
  }

  /** The debts after `l` replaced `before` (None: `l` is new). */
  predicate DebtMoved(b: Book, b': Book, before: Option<Loan>, l: Loan) {
    b'.debts == b.debts[l.borrower := Debt(b, l.borrower)
                        - (if before.Some? then Value(DebtOf(l.borrower), before.value) else 0)
                        + Value(DebtOf(l.borrower), l)]
    || (b'.debts == b.debts
        && (if before.Some? then Value(DebtOf(l.borrower), before.value) else 0) == Value(DebtOf(l.borrower), l))
  }

  /** Writing a changed record back keeps the book in order and moves every total by the
      difference the record makes. */
  lemma StoreChanged(b: Book, b': Book, l: Loan)
    requires BookOk(b) && l.id in b.loans && l.borrower == b.loans[l.id].borrower && LoanOk(l)
    requires b'.loans == b.loans[l.id := l] && b'.counter == b.counter
    requires DebtMoved(b, b', Some(b.loans[l.id]), l)
    ensures BookOk(b')
    ensures forall m {:trigger Total(m, b')} :: Total(m, b') == Total(m, b) - Value(m, b.loans[l.id]) + Value(m, l)
  {
    forall m
      ensures Total(m, b') == Total(m, b) - Value(m, b.loans[l.id]) + Value(m, l)
    {
      SumReplace(m, b.loans, l.id, l, b.counter);
    }
    forall a
      ensures Debt(b', a) == Total(DebtOf(a), b')
    {
      assert Debt(b, a) == Total(DebtOf(a), b);
      assert Debt(b, l.borrower) == Total(DebtOf(l.borrower), b);
    }
  }

  /** Entering a new record keeps the book in order and adds its share to every total. */
  lemma StoreNew(b: Book, b': Book, l: Loan)
    requires BookOk(b) && l.id == b.counter + 1 && LoanOk(l)
    requires b'.loans == b.loans[l.id := l] && b'.counter == l.id
    requires DebtMoved(b, b', None, l)
    ensures BookOk(b')
    ensures forall m {:trigger Total(m, b')} :: Total(m, b') == Total(m, b) + Value(m, l)
  {
    forall m
      ensures Total(m, b') == Total(m, b) + Value(m, l)
    {
      SumFrame(m, b.loans, b'.loans, b.counter);
    }
    forall a
      ensures Debt(b', a) == Total(DebtOf(a), b')
    {
      assert Debt(b, a) == Total(DebtOf(a), b);
      assert Debt(b, l.borrower) == Total(DebtOf(l.borrower), b);
    }
  }

  // ---------------------------------------------------------------- one step of the book

  /** How a loan record may change: identity, parties, terms and guarantee are fixed, and the
      status only moves along Pending -> Active -> Paid or Defaulted, or Pending -> Cancelled. */
  predicate Lifecycle(before: Loan, after: Loan) {
    && after.id == before.id && after.borrower == before.borrower && after.vendor == before.vendor
    && after.total == before.total && after.guarantee == before.guarantee
    && match before.status
       case Pending => after == before || after.status.Active? || after.status.Cancelled?
       case Active => after.status.Active? || after.status.Paid? || after.status.Defaulted?
       case _ => after == before
  }

  /** A step enters at most one loan, next in number, and every other record keeps to its lifecycle. */
  ghost predicate BookStep(b: Book, b': Book) {
    && (forall id :: id in b.loans ==> id in b'.loans && Lifecycle(b.loans[id], b'.loans[id]))
    && (|| (b'.counter == b.counter && b'.index == b.index && b'.loans.Keys == b.loans.Keys)
        || (b'.counter == b.counter + 1 && b'.loans.Keys == b.loans.Keys + {b'.counter}
            && (b'.loans[b'.counter].status.Pending? || b'.loans[b'.counter].status.Active?)
            && Append(b.index, b'.loans[b'.counter].borrower, b'.counter) == Ok(b'.index)))
  }

  lemma IndexNew(b: Book, b': Book, l: Loan, a: Address)
    requires l.id == b.counter + 1 && Indexed(b, a)
    requires b'.counter == l.id && l.id in b'.loans && b'.loans[l.id] == l
    requires forall i :: 1 <= i <= b.counter ==> (i in b.loans <==> i in b'.loans)
    requires forall i :: 1 <= i <= b.counter && i in b.loans ==> b.loans[i].borrower == b'.loans[i].borrower
    requires Append(b.index, l.borrower, l.id) == Ok(b'.index)
    ensures Indexed(b', a)
  {
    hide Represents;
    var ids := IdsOf(b.loans, a, b.counter);
    IdsFrame(b.loans, b'.loans, a, b.counter);
    if a != l.borrower {
      assert IdsOf(b'.loans, a, b'.counter) == ids + [] == ids;
      if |ids| <= CAPACITY {
        AppendFrame(b.index, l.borrower, l.id, a, ids);
      }
    } else if |ids| < CAPACITY {
      AppendExtends(b.index, a, ids, l.id);
    }
  }

  /** The paged index keeps listing exactly each borrower's loans. */
  lemma BookStepKeepsIndex(b: Book, b': Book)
    requires IndexOk(b) && BookStep(b, b') && (forall id :: id in b.loans <==> 1 <= id <= b.counter)
    requires b'.counter > b.counter ==> b'.loans[b'.counter].id == b'.counter
    ensures IndexOk(b')
  {
    forall a
      ensures Indexed(b', a)
    {
      assert Indexed(b, a);
      if b'.counter == b.counter {
        IdsFrame(b.loans, b'.loans, a, b.counter);
      } else {
        IndexNew(b, b', b'.loans[b'.counter], a);
      }
    }
  }
}
