/** How the screens meet through the one shared store: which keys each
    touches, what a saved transaction would do to the figures that read it,
    and what an app restart finds after a sign-in or a sign-out. */
module AppFlow {
  import opened Wrappers
  import opened Records
  import opened Storage
  import opened Auth
  import Register
  import Dashboard
  import Resume

  /** The register screen writes under the per-user key, which is never the
      key the dashboard and the summary read, nor the session key: a save
      leaves what those screens read untouched. */
  lemma SaveLeavesScreenDataAlone(kind: string, category: Register.CategoryChoice, t: Transaction,
                                  userId: string, entries: map<string, Stored>)
    ensures var key := Register.TransactionsKey(userId);
      var after := Register.RegisterStep(kind, category, t, key, entries).entries;
      && Lookup(after, Dashboard.DataKey) == Lookup(entries, Dashboard.DataKey)
      && Lookup(after, Resume.DataKey) == Lookup(entries, Resume.DataKey)
      && Lookup(after, UserStorageKey) == Lookup(entries, UserStorageKey)
  {
    var key := Register.TransactionsKey(userId);
    assert |key| >= |Register.TransactionsKeyPrefix|;
    assert key != Dashboard.DataKey && key != UserStorageKey by {
      assert |Dashboard.DataKey| < |Register.TransactionsKeyPrefix|;
      assert |UserStorageKey| < |Register.TransactionsKeyPrefix|;
    }
  }

  /** A saved transaction, were it in the list the dashboard reads, moves
      exactly one total by its amount and the net total with it. */
  lemma AppendMovesOneTotal(ts: seq<Transaction>, t: Transaction)
    ensures var before := Dashboard.Highlights(ts);
      var after := Dashboard.Highlights(ts + [t]);
      && (t.kind == Positive ==>
            after.entries.amount == before.entries.amount + t.amount
            && after.expenses.amount == before.expenses.amount)
      && (t.kind != Positive ==>
            after.entries.amount == before.entries.amount
            && after.expenses.amount == before.expenses.amount + t.amount)
  {
    assert (ts + [t])[..|ts|] == ts;
    Dashboard.TotalEntriesArePositives(ts);
    Dashboard.TotalEntriesArePositives(ts + [t]);
    Dashboard.TotalExpensesAreTheRest(ts);
    Dashboard.TotalExpensesAreTheRest(ts + [t]);
  }

  /** The latest date of a type after appending a transaction: the new
      transaction's time if it is of that type and no earlier one is later. */
  lemma {:induction false} LastDateAfterAppend(ts: seq<Transaction>, t: Transaction, kind: string)
    ensures var before := Dashboard.LastTransactionDate(ts, kind);
      Dashboard.LastTransactionDate(ts + [t], kind) ==
        if t.kind != kind then before
        else if before.Some? && t.date.time <= before.value then before
        else Some(t.date.time)
    decreases |ts|
  {
    if ts != [] {
      assert (ts + [t])[1..] == ts[1..] + [t];
      LastDateAfterAppend(ts[1..], t, kind);
    }
  }

  /** A saved expense dated in the selected month joins the end of that
      month's expenses; any other saved transaction leaves them as they were. */
  lemma AppendToMonthExpenses(ts: seq<Transaction>, t: Transaction, d: Resume.MonthYear)
    ensures Resume.MonthExpenses(ts + [t], d) ==
      Resume.MonthExpenses(ts, d) + (if Resume.IsMonthExpense(t, d) then [t] else [])
  {
    assert (ts + [t])[..|ts|] == ts;
  }

  /** Sign in with Google on one provider, then restart the app on the same
      store: when the provider answers "success" with a token and the
      user-info request resolves, the sign-in resolves and the restored
      session holds the user mapped from that payload. */
  method RestartAfterGoogleSignIn(store: AsyncStore, clientId: string, redirectUri: string,
                                  startAsync: string -> Result<AuthorizationResponse, AuthError>,
                                  fetchUserInfo: string -> Result<UserInfo, AuthError>)
    returns (outcome: Outcome<AuthError>, restored: Option<User>)
    modifies store
    ensures outcome == OutcomeOf(GoogleSignInResult(startAsync(GoogleAuthUrl(clientId, redirectUri)), fetchUserInfo))
    ensures var start := startAsync(GoogleAuthUrl(clientId, redirectUri));
      start.Success? && start.value.kind == "success" && start.value.params.Some? ==>
      var info := fetchUserInfo(UserInfoUrl(start.value.params.value.accessToken));
      info.Success? ==> outcome == Pass && restored == Some(GoogleUser(info.value))
  {
    var first := new AuthProvider(store);
    first.LoadStoredUserData();
    outcome := first.SignInWithGoogle(clientId, redirectUri, startAsync, fetchUserInfo);
    var second := new AuthProvider(store);
    second.LoadStoredUserData();
    restored := second.user;
  }

  /** Sign in with Apple on one provider, then restart the app on the same
      store: the restored session holds the user that signed in. */
  method RestartAfterAppleSignIn(store: AsyncStore,
                                 signInAsync: seq<AppleScope> -> Result<AppleCredential, AuthError>)
    returns (outcome: Outcome<AuthError>, restored: Option<User>)
    modifies store
    ensures outcome == OutcomeOf(AppleSignInResult(signInAsync(AppleScopes)))
    ensures outcome.Pass? ==> restored == Some(AppleSignInResult(signInAsync(AppleScopes)).value)
  {
    var first := new AuthProvider(store);
    first.LoadStoredUserData();
    outcome := first.SignInWithApple(signInAsync);
    var second := new AuthProvider(store);
    second.LoadStoredUserData();
    restored := second.user;
  }

  /** Sign out, then restart the app on the same store: no user is restored
      and loading has ended. */
  method RestartAfterSignOut(store: AsyncStore) returns (restored: Option<User>, loading: bool)
    modifies store
    ensures restored == None && !loading
    ensures forall k :: k != UserStorageKey ==> Lookup(store.entries, k) == Lookup(old(store.entries), k)
  {
    var first := new AuthProvider(store);
    first.LoadStoredUserData();
    first.SignOut();
    var second := new AuthProvider(store);
    second.LoadStoredUserData();
    restored, loading := second.user, second.userStorageLoading;
  }
}
