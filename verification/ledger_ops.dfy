/**
 * The ledger operations behind the save and delete handlers, the transaction
 * form, and the seed ledger: the lookups `findIndex`/`find` by identifier, the
 * in-place edit, the `filter` that deletes, the validation and normalisation
 * of a submitted form, and the form a new or existing transaction opens with.
 */
module LedgerOps {
  import opened LedgerTypes

  // ---------------------------------------------------------------------------
  // Lookup by identifier
  // ---------------------------------------------------------------------------

  /** `txs.findIndex(t => t.id == id)`: the first matching position, or -1. */
  function FindIndex(txs: seq<Transaction>, id: int): (r: int)
    ensures -1 <= r < |txs|
    ensures r == -1 <==> !HasId(txs, id)
    ensures 0 <= r ==> txs[r].id == id && forall j :: 0 <= j < r ==> txs[j].id != id
  {
    if txs == [] then -1
    else if txs[0].id == id then 0
    else
      var k := FindIndex(txs[1..], id);
      assert HasId(txs, id) ==> HasId(txs[1..], id) by {
        if HasId(txs, id) {
          var j :| 0 <= j < |txs| && txs[j].id == id;
          assert txs[1..][j - 1].id == id;
        }
      }
      if k == -1 then -1 else k + 1
  }

  /** `txs.find(t => t.id == id)`: the first transaction with that identifier. */
  function Find(txs: seq<Transaction>, id: int): (r: Option<Transaction>)
    ensures r.None? <==> !HasId(txs, id)
    ensures r.Some? ==> r.value in txs && r.value.id == id
    ensures r.Some? ==> r.value == txs[FindIndex(txs, id)]
  {
    var i := FindIndex(txs, id);
    if i < 0 then None else Some(txs[i])
  }

  // ---------------------------------------------------------------------------
  // Edit and delete
  // ---------------------------------------------------------------------------

  /**
   * `db.transactions[index] = t` with `index` from `findIndex`. When nothing
   * matches, the index is -1 and the assignment creates a property that is not
   * an array element, so the sequence of transactions is unchanged.
   */
  function ReplaceFirst(txs: seq<Transaction>, id: int, t: Transaction): (r: seq<Transaction>)
    ensures |r| == |txs|
    ensures !HasId(txs, id) ==> r == txs
  {
    var i := FindIndex(txs, id);
    if i < 0 then txs else txs[i := t]
  }

  /**
   * The edit touches exactly the first position holding `id`: that position
   * holds `t`, every other position is unchanged.
   */
  lemma ReplaceFirstSpec(txs: seq<Transaction>, id: int, t: Transaction)
    requires HasId(txs, id)
    ensures var r := ReplaceFirst(txs, id, t);
      exists i :: 0 <= i < |txs| && txs[i].id == id && (forall j :: 0 <= j < i ==> txs[j].id != id)
                  && r[i] == t
                  && forall j :: 0 <= j < |txs| && j != i ==> r[j] == txs[j]
  {
  }

  /**
   * After an edit that keeps the identifier, a ledger whose identifiers were
   * unique holds exactly one transaction with that identifier: the new one.
   */
  lemma EditLeavesExactlyOne(txs: seq<Transaction>, id: int, t: Transaction)
    requires UniqueIds(txs) && HasId(txs, id) && t.id == id
    ensures var r := ReplaceFirst(txs, id, t);
      UniqueIds(r) && t in r && forall j :: 0 <= j < |r| && r[j].id == id ==> r[j] == t
  {
    var i := FindIndex(txs, id);
    var r := ReplaceFirst(txs, id, t);
    assert r == txs[i := t];
    assert r[i] == t;
    forall j | 0 <= j < |r| && r[j].id == id
      ensures r[j] == t
    {
    }
  }

  /** `txs.filter(t => t.id != id)` */
  function Without(txs: seq<Transaction>, id: int): (r: seq<Transaction>)
    ensures |r| <= |txs|
    ensures forall t :: t in r <==> t in txs && t.id != id
  {
    if txs == [] then []
    else (if txs[0].id != id then [txs[0]] else []) + Without(txs[1..], id)
  }

  /** Survivors keep their relative order: deleting from a split ledger deletes from each part. */
  lemma {:induction false} WithoutAppend(a: seq<Transaction>, b: seq<Transaction>, id: int)
    ensures Without(a + b, id) == Without(a, id) + Without(b, id)
  {
    if a == [] {
      assert a + b == b;
    } else {
      assert (a + b)[1..] == a[1..] + b;
      WithoutAppend(a[1..], b, id);
    }
  }

  /** Every transaction without the identifier is kept as many times as it occurs. */
  lemma {:induction false} WithoutMultiset(txs: seq<Transaction>, id: int)
    ensures forall t :: multiset(Without(txs, id))[t] == if t.id == id then 0 else multiset(txs)[t]
  {
    if txs != [] {
      WithoutMultiset(txs[1..], id);
      assert txs == [txs[0]] + txs[1..];
    }
  }

  /** Deleting an identifier that is not in the ledger changes nothing. */
  lemma {:induction false} WithoutAbsent(txs: seq<Transaction>, id: int)
    requires !HasId(txs, id)
    ensures Without(txs, id) == txs
  {
    if txs != [] {
      assert !HasId(txs[1..], id);
      WithoutAbsent(txs[1..], id);
      assert txs == [txs[0]] + txs[1..];
    }
  }

  // ---------------------------------------------------------------------------
  // Validation and normalisation of a submitted form
  // ---------------------------------------------------------------------------

  /**
   * The record the save handler builds, or `None` when `!value || !date`
   * rejects the form: a NaN or zero amount, or an empty date. A negative
   * amount is truthy and passes. The category is kept for expenses only.
   */
  function Normalise(id: int, f: Form): (r: Option<Transaction>)
    ensures r.None? <==> f.value.None? || f.value == Some(0) || f.date.None?
    ensures r.Some? ==> && r.value.id == id
                        && r.value.kind == f.kind
                        && Some(r.value.value) == f.value
                        && Some(r.value.date) == f.date
                        && r.value.paymentMethod == f.paymentMethod
    ensures r.Some? ==> (r.value.category.Some? <==> f.kind == Expense)
    ensures r.Some? && r.value.category.Some? ==> r.value.category.value == f.category
  {
    if f.value.None? || f.value.value == 0 || f.date.None? then None
    else Some(Transaction(id, f.kind, f.value.value, f.date.value, f.paymentMethod,
                          if f.kind == Expense then Some(f.category) else None))
  }

  /** A negative amount is not rejected. */
  lemma NegativeAmountAccepted(id: int, f: Form)
    requires f.value.Some? && f.value.value < 0 && f.date.Some?
    ensures Normalise(id, f).Some? && Normalise(id, f).value.value < 0
  {
  }

  // ---------------------------------------------------------------------------
  // Identifier uniqueness and category consistency
  // ---------------------------------------------------------------------------

  /** Appending a record whose identifier is fresh keeps identifiers unique. */
  lemma AddKeepsUniqueIds(txs: seq<Transaction>, t: Transaction)
    requires UniqueIds(txs) && !HasId(txs, t.id)
    ensures UniqueIds(txs + [t])
  {
  }

  /** Deleting keeps identifiers unique. */
  lemma {:induction false} WithoutKeepsUniqueIds(txs: seq<Transaction>, id: int)
    requires UniqueIds(txs)
    ensures UniqueIds(Without(txs, id))
  {
    if txs != [] {
      var rest := Without(txs[1..], id);
      WithoutKeepsUniqueIds(txs[1..], id);
      if txs[0].id != id {
        var r := [txs[0]] + rest;
        forall i, j | 0 <= i < j < |r|
          ensures r[i].id != r[j].id
        {
          if i == 0 {
            assert r[j] == rest[j - 1] && rest[j - 1] in rest;
            var k :| 0 <= k < |txs[1..]| && txs[1..][k] == rest[j - 1];
            assert txs[k + 1] == r[j];
          }
        }
      }
    }
  }

  /** Adding or editing with an accepted form stores only category-consistent records. */
  lemma ConsistencyKept(txs: seq<Transaction>, id: int, f: Form)
    requires AllConsistent(txs) && Normalise(id, f).Some?
    ensures AllConsistent(txs + [Normalise(id, f).value])
    ensures AllConsistent(ReplaceFirst(txs, id, Normalise(id, f).value))
  {
  }

  /** Deleting keeps every remaining category consistent. */
  lemma WithoutKeepsConsistency(txs: seq<Transaction>, id: int)
    requires AllConsistent(txs)
    ensures AllConsistent(Without(txs, id))
  {
  }

  // ---------------------------------------------------------------------------
  // The transaction form
  // ---------------------------------------------------------------------------

  const PaymentMethodOptions: seq<string> := ["Dinheiro", "Pix", "Cartão"]
  const CategoryOptions: seq<string> := ["Comida", "Roupa", "Transporte", "Outros"]

  /** A select shows the option rendered `selected`, or its first option when none is. */
  function SelectValue(options: seq<string>, wanted: string): (r: string)
    requires options != []
    ensures r in options
    ensures wanted in options ==> r == wanted
  {
    if wanted in options then wanted else options[0]
  }

  /**
   * The form `openTransactionModal` shows. Without an identifier: an expense
   * with an empty amount and today's date. With one: the first transaction
   * carrying it, its amount left empty when it is 0 (`value || ''`). When no
   * transaction carries it, reading a field of `undefined` throws and no form
   * opens: `None`.
   */
  function OpenForm(txs: seq<Transaction>, id: Option<int>, today: Date): (r: Option<Form>)
    ensures id.None? ==> r.Some? && r.value.kind == Expense && r.value.value.None? && r.value.date == Some(today)
    ensures id.Some? ==> (r.Some? <==> HasId(txs, id.value))
  {
    match id
    case None => Some(Form(Expense, None, Some(today),
                           SelectValue(PaymentMethodOptions, ""),
                           SelectValue(CategoryOptions, "")))
    case Some(key) =>
      match Find(txs, key)
      case None => None
      case Some(t) => Some(Form(t.kind,
                                if t.value == 0 then None else Some(t.value),
                                Some(t.date),
                                SelectValue(PaymentMethodOptions, t.paymentMethod),
                                SelectValue(CategoryOptions, if t.category.Some? then t.category.value else "")))
  }

  /** A record that the form can show without losing anything. */
  predicate Representable(t: Transaction)
  {
    && t.value != 0
    && CategoryConsistent(t)
    && t.paymentMethod in PaymentMethodOptions
    && (t.category.Some? ==> t.category.value in CategoryOptions)
  }

  /**
   * Opening an existing transaction and saving the form unchanged gives back
   * the very same record, and leaves the ledger as it was, exactly when the
   * record is representable in the form.
   */
  lemma EditFormRoundTrip(txs: seq<Transaction>, id: int, today: Date)
    requires HasId(txs, id)
    ensures OpenForm(txs, Some(id), today).Some?
    ensures var t := txs[FindIndex(txs, id)];
            Normalise(id, OpenForm(txs, Some(id), today).value) == Some(t) <==> Representable(t)
    ensures var t := txs[FindIndex(txs, id)];
            Representable(t) ==> ReplaceFirst(txs, id, t) == txs
  {
  }

  /**
   * A new form left unchanged is rejected: its amount is empty. With an
   * amount entered it records an expense of today in the first category and
   * payment method.
   */
  lemma NewFormDefaults(txs: seq<Transaction>, today: Date, now: int, amount: int)
    requires amount != 0
    ensures Normalise(now, OpenForm(txs, None, today).value).None?
    ensures Normalise(now, OpenForm(txs, None, today).value.(value := Some(amount)))
            == Some(Transaction(now, Expense, amount, today, "Dinheiro", Some("Comida")))
  {
  }

  // ---------------------------------------------------------------------------
  // The seed ledger
  // ---------------------------------------------------------------------------

  /** The four example transactions as the source writes them. */
  const SeedAsWritten: seq<Transaction> := [
    Transaction(1, Income, 1500, DateOf(2025, 10, 1), "PIX", None),
    Transaction(2, Expense, 50, DateOf(2025, 10, 2), "Cartão", Some("Comida")),
    Transaction(3, Expense, 25, DateOf(2025, 10, 3), "Dinheiro", Some("Transporte")),
    Transaction(4, Income, 200, DateOf(2025, 10, 5), "Dinheiro", None)
  ]

  /** The seed with the first payment method spelled as the form's option `Pix`. */
  const Seed: seq<Transaction> := [
    Transaction(1, Income, 1500, DateOf(2025, 10, 1), "Pix", None),
    Transaction(2, Expense, 50, DateOf(2025, 10, 2), "Cartão", Some("Comida")),
    Transaction(3, Expense, 25, DateOf(2025, 10, 3), "Dinheiro", Some("Transporte")),
    Transaction(4, Income, 200, DateOf(2025, 10, 5), "Dinheiro", None)
  ]

  const DefaultSettings: Settings := Settings("light", "Usuário")

  /**
   * As written, opening the first seed transaction and saving it unchanged
   * replaces its payment method `PIX` by `Dinheiro`: no option of the select
   * matches, so the select falls back to its first option.
   */
  lemma SeedAsWrittenEditRewritesPix(today: Date)
    ensures OpenForm(SeedAsWritten, Some(1), today).Some?
    ensures var r := Normalise(1, OpenForm(SeedAsWritten, Some(1), today).value);
            r != Some(SeedAsWritten[0]) && r == Some(SeedAsWritten[0].(paymentMethod := "Dinheiro"))
  {
  }

  /** Both seeds have unique identifiers and consistent categories. */
  lemma SeedInvariant()
    ensures UniqueIds(SeedAsWritten) && AllConsistent(SeedAsWritten)
    ensures UniqueIds(Seed) && AllConsistent(Seed)
  {
  }

  /** Every transaction of the corrected seed survives an unchanged edit. */
  lemma SeedEditRoundTrips(i: nat, today: Date)
    requires i < |Seed|
    ensures Normalise(Seed[i].id, OpenForm(Seed, Some(Seed[i].id), today).value) == Some(Seed[i])
  {
  }
}
