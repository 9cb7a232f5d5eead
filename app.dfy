/**
 * The application state and the handlers that change it. `users` is the
 * credential store (the stored user list), `currentUser` the session, and
 * `transactions`, `budgets`, `goals` the signed-in user's collections in
 * memory. The three `saved*` maps are the per-user stored collections,
 * indexed by storage key. Ids, the password encoding and decoding, and the
 * confirmation dialog's answer come in as parameters.
 */
module App {
  import opened Records
  import opened StorageKey
  import opened Collections
  import opened Aggregates
  import opened Progress

  /** What a handler tells the user. */
  datatype Notice =
    | Done
    | PasswordsDoNotMatch
    | EmailAlreadyExists
    | InvalidCredentials
    | MissingFields
    | Cancelled
    | NotSignedIn

  /** A stored collection, or the empty list when nothing is stored under the key. */
  function Stored<T>(saved: map<string, seq<T>>, key: string): (value: seq<T>)
    ensures key in saved ==> value == saved[key]
    ensures key !in saved ==> value == []
  {
    if key in saved then saved[key] else []
  }

  /** The stored collections after writing `value` under the key, when the key can be used. */
  function Persist<T>(saved: map<string, seq<T>>, key: Option<string>, value: seq<T>): (after: map<string, seq<T>>)
    ensures Usable(key) ==> after.Keys == saved.Keys + {key.value} && after[key.value] == value
    ensures !Usable(key) ==> after == saved
    ensures forall k :: k in saved && !(Usable(key) && k == key.value) ==> k in after && after[k] == saved[k]
  {
    if Usable(key) then saved[key.value := value] else saved
  }

  /** What is saved under a usable key is what the next load reads back. */
  lemma PersistThenStored<T>(saved: map<string, seq<T>>, key: Option<string>, value: seq<T>)
    requires Usable(key)
    ensures Stored(Persist(saved, key, value), key.value) == value
  {
  }

  class AppState {
    var users: seq<User>
    var currentUser: Option<User>
    var transactions: seq<Transaction>
    var budgets: seq<Budget>
    var goals: seq<Goal>
    var savedTransactions: map<string, seq<Transaction>>
    var savedBudgets: map<string, seq<Budget>>
    var savedGoals: map<string, seq<Goal>>

    /**
     * Emails are unique in the store, the session's user is a stored user,
     * and no user has two budgets for one category.
     */
    ghost predicate Valid()
      reads this
    {
      && EmailsDistinct(users)
      && (currentUser.Some? ==> currentUser.value in users)
      && AtMostOnePerCategory(budgets)
      && (forall k :: k in savedBudgets ==> AtMostOnePerCategory(savedBudgets[k]))
    }

    /** The collections hold the data stored under `key`, or are as they were when it cannot be used. */
    ghost predicate LoadedFrom(key: Option<string>, t0: seq<Transaction>, b0: seq<Budget>, g0: seq<Goal>)
      reads this
    {
      if Usable(key) then
        transactions == Stored(savedTransactions, key.value)
        && budgets == Stored(savedBudgets, key.value)
        && goals == Stored(savedGoals, key.value)
      else
        transactions == t0 && budgets == b0 && goals == g0
    }

    /** A fresh browser: no users, nobody signed in, nothing stored. */
    constructor ()
      ensures Valid()
      ensures users == [] && currentUser == None
      ensures transactions == [] && budgets == [] && goals == []
      ensures savedTransactions == map[] && savedBudgets == map[] && savedGoals == map[]
    {
      users := [];
      currentUser := None;
      transactions, budgets, goals := [], [], [];
      savedTransactions, savedBudgets, savedGoals := map[], map[], map[];
    }

    /** Load the session user's three collections from storage. */
    method LoadUserData()
      requires Valid()
      modifies this`transactions, this`budgets, this`goals
      ensures Valid()
      ensures LoadedFrom(UserKey(currentUser), old(transactions), old(budgets), old(goals))
    {
      var key := UserKey(currentUser);
      if Usable(key) {
        transactions := Stored(savedTransactions, key.value);
        budgets := Stored(savedBudgets, key.value);
        goals := Stored(savedGoals, key.value);
      }
    }

    /**
     * Sign up: refused when the confirmation differs from the password or
     * the email is taken; otherwise the new user, with the password encoded
     * and the default currency, goes at the end of the store, becomes the
     * session, and that user's data is loaded.
     */
    method CreateAccount(name: string, email: string, password: string, confirm: string, encrypt: string -> string)
      returns (notice: Notice)
      requires Valid()
      modifies this
      ensures Valid()
      ensures password != confirm ==> notice == PasswordsDoNotMatch
      ensures password == confirm && FindByEmail(old(users), email).Some? ==> notice == EmailAlreadyExists
      ensures notice == Done <==> password == confirm && FindByEmail(old(users), email).None?
      ensures notice != Done ==>
        users == old(users) && currentUser == old(currentUser)
        && transactions == old(transactions) && budgets == old(budgets) && goals == old(goals)
      ensures notice == Done ==>
        var u := User(email, encrypt(password), name, Settings(DefaultCurrency));
        users == old(users) + [u] && currentUser == Some(u)
        && LoadedFrom(UserKey(currentUser), old(transactions), old(budgets), old(goals))
      ensures savedTransactions == old(savedTransactions) && savedBudgets == old(savedBudgets)
      ensures savedGoals == old(savedGoals)
    {
      if password != confirm {
        return PasswordsDoNotMatch;
      }
      if FindByEmail(users, email).Some? {
        return EmailAlreadyExists;
      }
      var u := User(email, encrypt(password), name, Settings(DefaultCurrency));
      AppendNewEmail(users, u);
      users := users + [u];
      currentUser := Some(u);
      LoadUserData();
      notice := Done;
    }

    /**
     * Sign in: the first stored user with exactly this email is accepted when
     * the stored password decodes to the one given, or equals it as stored.
     * On success that user becomes the session and their data is loaded;
     * otherwise nothing changes.
     */
    method SignIn(email: string, password: string, decrypt: string -> string) returns (notice: Notice)
      requires Valid()
      modifies this
      ensures Valid()
      ensures notice == Done || notice == InvalidCredentials
      ensures var found := FindByEmail(old(users), email);
        notice == Done <==>
          found.Some? && (decrypt(old(users)[found.value].password) == password
                          || old(users)[found.value].password == password)
      ensures notice == Done ==>
        currentUser == Some(old(users)[FindByEmail(old(users), email).value])
        && LoadedFrom(UserKey(currentUser), old(transactions), old(budgets), old(goals))
      ensures notice != Done ==>
        currentUser == old(currentUser)
        && transactions == old(transactions) && budgets == old(budgets) && goals == old(goals)
      ensures users == old(users)
      ensures savedTransactions == old(savedTransactions) && savedBudgets == old(savedBudgets)
      ensures savedGoals == old(savedGoals)
    {
      var found := FindByEmail(users, email);
      if found.Some? {
        var stored := users[found.value].password;
        if decrypt(stored) == password || stored == password {
          currentUser := Some(users[found.value]);
          LoadUserData();
          return Done;
        }
      }
      notice := InvalidCredentials;
    }

    /**
     * Save the display currency: it is set on the session's user and on the
     * stored user with the same email, if there is one.
     */
    method SaveSettings(currency: string) returns (notice: Notice)
      requires Valid()
      modifies this`users, this`currentUser
      ensures Valid()
      ensures old(currentUser).None? ==> notice == NotSignedIn && users == old(users) && currentUser == None
      ensures old(currentUser).Some? ==>
        var u := old(currentUser).value;
        notice == Done
        && currentUser == Some(u.(settings := u.settings.(baseCurrency := currency)))
        && match FindByEmail(old(users), u.email)
           case None => users == old(users)
           case Some(i) => users == old(users)[i := old(users)[i].(settings := Settings(currency))]
    {
      if currentUser.None? {
        return NotSignedIn;
      }
      var u := currentUser.value;
      var updated := u.(settings := u.settings.(baseCurrency := currency));
      var found := FindByEmail(users, u.email);
      if found.Some? {
        var i := found.value;
        ghost var j :| 0 <= j < |users| && users[j] == u;
        FindByEmailDistinct(users, j);
        users := users[i := users[i].(settings := Settings(currency))];
        assert users[i] == updated;
      }
      currentUser := Some(updated);
      notice := Done;
    }

    /** Sign out: ends the session and empties the transactions; budgets and goals stay. */
    method SignOut()
      requires Valid()
      modifies this`currentUser, this`transactions
      ensures Valid()
      ensures currentUser == None && transactions == []
      ensures budgets == old(budgets) && goals == old(goals)
    {
      currentUser := None;
      transactions := [];
    }

    /**
     * Add a transaction: refused when a field other than the notes is empty;
     * otherwise it goes at the end of the list, and the list is stored.
     */
    method SaveTransaction(id: string, kind: string, title: string, amount: string, category: string,
                           date: string, notes: string) returns (notice: Notice)
      requires Valid()
      modifies this`transactions, this`savedTransactions
      ensures Valid()
      ensures notice == Done <==> kind != "" && title != "" && amount != "" && category != "" && date != ""
      ensures notice != Done ==>
        notice == MissingFields && transactions == old(transactions) && savedTransactions == old(savedTransactions)
      ensures notice == Done ==>
        transactions == old(transactions) + [Transaction(id, kind, title, amount, category, date, notes)]
        && savedTransactions == Persist(old(savedTransactions), UserKey(currentUser), transactions)
    {
      if kind == "" || title == "" || amount == "" || category == "" || date == "" {
        return MissingFields;
      }
      transactions := transactions + [Transaction(id, kind, title, amount, category, date, notes)];
      savedTransactions := Persist(savedTransactions, UserKey(currentUser), transactions);
      notice := Done;
    }

    /**
     * Delete a transaction once the user confirms: every transaction with
     * that id goes, the rest keep their order, and the list is stored.
     */
    method DeleteTransaction(id: string, confirmed: bool) returns (notice: Notice)
      requires Valid()
      modifies this`transactions, this`savedTransactions
      ensures Valid()
      ensures !confirmed ==>
        notice == Cancelled && transactions == old(transactions) && savedTransactions == old(savedTransactions)
      ensures confirmed ==>
        notice == Done
        && transactions == WithoutId(old(transactions), id)
        && savedTransactions == Persist(old(savedTransactions), UserKey(currentUser), transactions)
    {
      if !confirmed {
        return Cancelled;
      }
      transactions := WithoutId(transactions, id);
      savedTransactions := Persist(savedTransactions, UserKey(currentUser), transactions);
      notice := Done;
    }

    /**
     * Set a budget: refused when the category or amount is empty; otherwise
     * any budget of that category is replaced by the new one, placed last.
     */
    method SaveBudget(id: string, category: string, amount: string) returns (notice: Notice)
      requires Valid()
      modifies this`budgets, this`savedBudgets
      ensures Valid()
      ensures notice == Done <==> category != "" && amount != ""
      ensures notice != Done ==>
        notice == MissingFields && budgets == old(budgets) && savedBudgets == old(savedBudgets)
      ensures notice == Done ==>
        budgets == Upsert(old(budgets), Budget(id, category, amount))
        && savedBudgets == Persist(old(savedBudgets), UserKey(currentUser), budgets)
    {
      if category == "" || amount == "" {
        return MissingFields;
      }
      UpsertKeepsUnique(budgets, Budget(id, category, amount));
      budgets := Upsert(budgets, Budget(id, category, amount));
      savedBudgets := Persist(savedBudgets, UserKey(currentUser), budgets);
      notice := Done;
    }

    /** Add a goal: refused when the name or target is empty; otherwise appended and stored. */
    method SaveGoal(id: string, name: string, target: string, current: string, date: string) returns (notice: Notice)
      requires Valid()
      modifies this`goals, this`savedGoals
      ensures Valid()
      ensures notice == Done <==> name != "" && target != ""
      ensures notice != Done ==> notice == MissingFields && goals == old(goals) && savedGoals == old(savedGoals)
      ensures notice == Done ==>
        goals == old(goals) + [Goal(id, name, target, current, date)]
        && savedGoals == Persist(old(savedGoals), UserKey(currentUser), goals)
    {
      if name == "" || target == "" {
        return MissingFields;
      }
      goals := goals + [Goal(id, name, target, current, date)];
      savedGoals := Persist(savedGoals, UserKey(currentUser), goals);
      notice := Done;
    }

    /** The dashboard figures, or nothing when nobody is signed in. */
    method Dashboard(parse: string -> real) returns (totals: Option<Totals>)
      ensures totals.None? <==> currentUser.None?
      ensures totals.Some? ==>
        totals.value.income == Total(transactions, OfKind("income"), parse)
        && totals.value.expense == Total(transactions, OfKind("expense"), parse)
        && totals.value.balance == totals.value.income - totals.value.expense
        && totals.value.savings >= 0.0 && totals.value.savings >= totals.value.balance
        && (totals.value.savings == 0.0 || totals.value.savings == totals.value.balance)
    {
      if currentUser.None? {
        return None;
      }
      var t := ComputeTotals(transactions, parse);
      totals := Some(t);
    }

    /** The budgets page: one entry per budget, in list order. */
    method BudgetList(parse: string -> real) returns (lines: seq<BudgetLine>)
      requires forall b :: b in budgets ==> parse(b.amount) > 0.0
      ensures |lines| == |budgets|
      ensures forall i :: 0 <= i < |budgets| ==>
        lines[i].category == budgets[i].category
        && lines[i].spent == Total(transactions, ExpenseIn(budgets[i].category), parse)
        && lines[i].percent <= 100.0
        && (lines[i].colorClass == "danger" <==> lines[i].percent > 90.0)
      ensures forall i :: 0 <= i < |budgets| ==> lines[i] == BudgetLineOf(transactions, budgets[i], parse)
    {
      lines := [];
      var i := 0;
      while i < |budgets|
        invariant 0 <= i <= |budgets|
        invariant |lines| == i
        invariant forall j :: 0 <= j < i ==> lines[j] == BudgetLineOf(transactions, budgets[j], parse)
      {
        lines := lines + [BudgetLineOf(transactions, budgets[i], parse)];
        i := i + 1;
      }
    }

    /** The goals page: each goal's progress in whole percent, in list order. */
    method GoalList(parse: string -> real) returns (percents: seq<int>)
      requires forall g :: g in goals ==> parse(g.target) > 0.0
      ensures |percents| == |goals|
      ensures forall i :: 0 <= i < |goals| ==> percents[i] == GoalPercentOf(goals[i], parse)
      ensures forall i :: 0 <= i < |goals| ==> percents[i] <= 100
    {
      percents := [];
      var i := 0;
      while i < |goals|
        invariant 0 <= i <= |goals|
        invariant |percents| == i
        invariant forall j :: 0 <= j < i ==> percents[j] == GoalPercentOf(goals[j], parse)
      {
        percents := percents + [GoalPercentOf(goals[i], parse)];
        i := i + 1;
      }
    }
  }

  /**
   * Create an account, sign out, sign in again with the same password: the
   * sign-in succeeds and the session has the default currency.
   */
  method SignUpThenSignIn(encrypt: string -> string, decrypt: string -> string) returns (notice: Notice, currency: string)
    requires decrypt(encrypt("pw1")) == "pw1"
    ensures notice == Done && currency == "USD"
  {
    var alice := User("alice@x.com", encrypt("pw1"), "Alice", Settings(DefaultCurrency));
    assert FindByEmail([], "alice@x.com") == None;
    assert FindByEmail([alice], "alice@x.com") == Some(0);
    var app := new AppState();
    var created := app.CreateAccount("Alice", "alice@x.com", "pw1", "pw1", encrypt);
    assert created == Done && app.users == [alice];
    app.SignOut();
    notice := app.SignIn("alice@x.com", "pw1", decrypt);
    assert notice == Done && app.currentUser == Some(alice);
    currency := app.currentUser.value.settings.baseCurrency;
  }

  /** Signing up twice with one email: the second attempt is refused and the store keeps one user. */
  method DuplicateSignUp(encrypt: string -> string) returns (notice: Notice, count: nat)
    ensures notice == EmailAlreadyExists && count == 1
  {
    var app := new AppState();
    var first := app.CreateAccount("Alice", "alice@x.com", "pw1", "pw1", encrypt);
    notice := app.CreateAccount("Alice2", "alice@x.com", "pw2", "pw2", encrypt);
    count := |app.users|;
  }
}
