/** The transaction registration screen: the form schema, the selected
    transaction type and category, and the save that appends one record to
    the signed-in user's stored list. */
module Register {
  import opened Wrappers
  import opened Records
  import opened Storage
  import opened Auth

  // ---------------------------------------------------------------------
  // The per-user storage key

  const TransactionsKeyPrefix := "@gofinances:transactions_user:"

  /** `${user.id}`: the empty user has no id, which a template literal renders
      as "undefined". */
  function UserIdText(user: Option<User>): (text: string)
    ensures user.Some? ==> text == user.value.id
    ensures user.None? ==> text == "undefined"
  {
    if user.Some? then user.value.id else "undefined"
  }

  /** The key of one user's transaction list: the prefix, then the user id. */
  function TransactionsKey(userId: string): (key: string)
    ensures |key| == |TransactionsKeyPrefix| + |userId|
    ensures key[..|TransactionsKeyPrefix|] == TransactionsKeyPrefix
    ensures key[|TransactionsKeyPrefix|..] == userId
  {
    TransactionsKeyPrefix + userId
  }

  /** Different users' lists live under different keys. */
  lemma TransactionsKeyInjective(a: string, b: string)
    requires a != b
    ensures TransactionsKey(a) != TransactionsKey(b)
  {
    assert TransactionsKey(a)[|TransactionsKeyPrefix|..] == a;
    assert TransactionsKey(b)[|TransactionsKeyPrefix|..] == b;
  }

  // ---------------------------------------------------------------------
  // The form and its schema

  /** What the amount input holds once the schema casts it: nothing typed,
      text that is not a number, or a number (in cents). */
  datatype AmountInput = AmountAbsent | NotNumeric | Numeric(value: int)

  datatype FormData = FormData(name: string, amount: AmountInput)

  /** The form's default values, which `reset()` restores. */
  const EmptyForm := FormData("", AmountAbsent)

  /** One message per failing field, as the schema reports them. */
  datatype FieldError =
    | NameRequired        // 'Nome é obrigatório'
    | AmountNotNumeric    // 'Informe um valor numérico'
    | AmountNotPositive   // 'O valor não pode ser negativo'
    | AmountRequired      // 'O valor é obrigatório'

  /** The values the schema hands to `handleRegister`. */
  datatype ValidForm = ValidForm(name: string, amount: int)

  function NameErrors(name: string): seq<FieldError>
  {
    if name == "" then [NameRequired] else []
  }

  function AmountErrors(amount: AmountInput): seq<FieldError>
  {
    match amount
    case AmountAbsent => [AmountRequired]
    case NotNumeric => [AmountNotNumeric]
    case Numeric(v) => if v > 0 then [] else [AmountNotPositive]
  }

  /** The schema: a required name and a required, numeric, strictly positive
      amount. A failure lists one error for each failing field. */
  function Resolve(form: FormData): (r: Result<ValidForm, seq<FieldError>>)
    ensures r.Success? <==> form.name != "" && form.amount.Numeric? && form.amount.value > 0
    ensures r.Success? ==> r.value == ValidForm(form.name, form.amount.value)
    ensures r.Failure? ==>
      && (NameRequired in r.error <==> form.name == "")
      && (AmountRequired in r.error <==> form.amount.AmountAbsent?)
      && (AmountNotNumeric in r.error <==> form.amount.NotNumeric?)
      && (AmountNotPositive in r.error <==> form.amount.Numeric? && form.amount.value <= 0)
      && |r.error| <= 2
  {
    var errors := NameErrors(form.name) + AmountErrors(form.amount);
    if errors == [] then Success(ValidForm(form.name, form.amount.value)) else Failure(errors)
  }

  // ---------------------------------------------------------------------
  // The selection state

  datatype CategoryChoice = CategoryChoice(key: string, name: string)

  /** The category shown before the user picks one. */
  const PlaceholderCategory := CategoryChoice("category", "Categoria")

  /** What pressing "Enviar" leads to. */
  datatype RegisterOutcome =
    | InvalidForm(errors: seq<FieldError>)   // the schema rejects; handleRegister is not called
    | TypeNotSelected                        // alert 'Selecione o tipo da transação'
    | CategoryNotSelected                    // alert 'Selecione a categoria'
    | Saved
    | SaveFailed                             // alert 'Erro ao cadastrar transação'

  /** The record a save appends. */
  function NewTransaction(id: string, form: ValidForm, kind: string,
                          category: CategoryChoice, now: Date): (t: Transaction)
    ensures t.id == id && t.date == now
    ensures t.name == form.name && t.amount == form.amount
    ensures t.kind == kind && t.category == category.key
  {
    Transaction(id, form.name, form.amount, kind, category.key, now)
  }

  /** The read–append of a save: the stored list (an absent value being the
      empty list) with `t` at its end, or None when the stored value cannot
      be spread into an array and the save throws. */
  function AppendTo(stored: Option<Stored>, t: Transaction): (r: Option<seq<Transaction>>)
    ensures stored.None? ==> r == Some([t])
    ensures r.Some? <==> StoredTransactions(stored).Some?
    ensures r.Some? ==>
      var before := StoredTransactions(stored).value;
      && |r.value| == |before| + 1
      && r.value[..|before|] == before
      && r.value[|before|] == t
  {
    match StoredTransactions(stored)
    case None => None
    case Some(items) =>
      assert stored.None? ==> items + [t] == [t];
      Some(items + [t])
  }

  /** The store after a save attempt, and what the user is told. */
  datatype SaveStep = SaveStep(outcome: RegisterOutcome, entries: map<string, Stored>)

  /** `handleRegister` on the store: the type check first, then the category
      check, then the read–append–write of the list under `key`. Only a save
      writes, and it writes that one key. */
  function RegisterStep(kind: string, category: CategoryChoice, t: Transaction,
                        key: string, entries: map<string, Stored>): (s: SaveStep)
    ensures kind == "" ==> s == SaveStep(TypeNotSelected, entries)
    ensures kind != "" && category.key == "category" ==> s == SaveStep(CategoryNotSelected, entries)
    ensures s.outcome == Saved <==>
      kind != "" && category.key != "category" && AppendTo(Lookup(entries, key), t).Some?
    ensures s.outcome == Saved ==>
      s.entries == entries[key := TransactionList(AppendTo(Lookup(entries, key), t).value)]
    ensures kind != "" && category.key != "category" && AppendTo(Lookup(entries, key), t).None? ==>
      s == SaveStep(SaveFailed, entries)
    ensures s.outcome != Saved ==> s.entries == entries
    ensures !s.outcome.InvalidForm?
  {
    if kind == "" then SaveStep(TypeNotSelected, entries)
    else if category.key == "category" then SaveStep(CategoryNotSelected, entries)
    else
      match AppendTo(Lookup(entries, key), t)
      case None => SaveStep(SaveFailed, entries)
      case Some(list) => SaveStep(Saved, entries[key := TransactionList(list)])
  }

  class RegisterScreen {
    var transactionType: string
    var category: CategoryChoice
    var form: FormData
    const store: AsyncStore
    const auth: AuthProvider

    constructor (store: AsyncStore, auth: AuthProvider)
      ensures transactionType == "" && category == PlaceholderCategory && form == EmptyForm
      ensures this.store == store && this.auth == auth
    {
      transactionType := "";
      category := PlaceholderCategory;
      form := EmptyForm;
      this.store := store;
      this.auth := auth;
    }

    /** The Income and Outcome buttons. */
    method HandleTransactionTypeSelect(kind: string)
      requires kind == Positive || kind == Negative
      modifies this
      ensures transactionType == kind
      ensures category == old(category) && form == old(form)
    {
      transactionType := kind;
    }

    /** The `setCategory` handed to the category picker. */
    method SelectCategory(choice: CategoryChoice)
      modifies this
      ensures category == choice
      ensures transactionType == old(transactionType) && form == old(form)
    {
      category := choice;
    }

    /** The name and amount inputs. */
    method EditForm(values: FormData)
      modifies this
      ensures form == values
      ensures transactionType == old(transactionType) && category == old(category)
    {
      form := values;
    }

    /** `handleSubmit(handleRegister)`: the schema first, then the save. */
    method HandleSubmit(newId: string, now: Date) returns (outcome: RegisterOutcome)
      modifies this, store
      ensures Resolve(old(form)).Failure? ==>
        outcome == InvalidForm(Resolve(old(form)).error) && unchanged(this, store)
      ensures Resolve(old(form)).Success? ==>
        var t := NewTransaction(newId, Resolve(old(form)).value, old(transactionType), old(category), now);
        var step := RegisterStep(old(transactionType), old(category), t,
                                 TransactionsKey(UserIdText(auth.user)), old(store.entries));
        outcome == step.outcome && store.entries == step.entries
      ensures outcome == Saved ==>
        transactionType == "" && category == PlaceholderCategory && form == EmptyForm
      ensures outcome != Saved ==> unchanged(this)
    {
      var resolved := Resolve(form);
      if resolved.Failure? {
        return InvalidForm(resolved.error);
      }
      outcome := HandleRegister(resolved.value, newId, now);
    }

    /** `handleRegister`: validate the selection, append the new record to
        the signed-in user's list, and reset the screen after a save. */
    method HandleRegister(data: ValidForm, newId: string, now: Date) returns (outcome: RegisterOutcome)
      modifies this, store
      ensures var t := NewTransaction(newId, data, old(transactionType), old(category), now);
        var step := RegisterStep(old(transactionType), old(category), t,
                                 TransactionsKey(UserIdText(auth.user)), old(store.entries));
        outcome == step.outcome && store.entries == step.entries
      ensures outcome == Saved ==>
        transactionType == "" && category == PlaceholderCategory && form == EmptyForm
      ensures outcome != Saved ==> unchanged(this)
    {
      if transactionType == "" {
        return TypeNotSelected;
      }
      if category.key == "category" {
        return CategoryNotSelected;
      }
      var newTransaction := NewTransaction(newId, data, transactionType, category, now);
      var dataKey := TransactionsKey(UserIdText(auth.user));
      var stored := store.GetItem(dataKey);
      var formattedData := AppendTo(stored, newTransaction);
      if formattedData.None? {
        return SaveFailed;
      }
      store.SetItem(dataKey, TransactionList(formattedData.value));
      form := EmptyForm;
      transactionType := "";
      category := PlaceholderCategory;
      outcome := Saved;
    }
  }
}
