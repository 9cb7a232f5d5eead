/**
 * The list operations the handlers apply to the stored collections: finding
 * a user by email, removing the transactions with a given id, and replacing
 * the budget of a category.
 */
module Collections {
  import opened Records

  // ----- users -----

  /** No two users share an email. */
  predicate EmailsDistinct(users: seq<User>) {
    forall i, j :: 0 <= i < j < |users| ==> users[i].email != users[j].email
  }

  /** The position of the first user whose email is exactly `email`, if any. */
  function FindByEmail(users: seq<User>, email: string): (r: Option<nat>)
    ensures r.Some? ==> r.value < |users| && users[r.value].email == email
    ensures r.Some? ==> forall j :: 0 <= j < r.value ==> users[j].email != email
    ensures r.None? <==> forall u :: u in users ==> u.email != email
  {
    if users == [] then None
    else if users[0].email == email then Some(0)
    else
      match FindByEmail(users[1..], email)
      case None => None
      case Some(i) => Some(i + 1)
  }

  /** With distinct emails, the user found is the one holding that email. */
  lemma FindByEmailDistinct(users: seq<User>, i: nat)
    requires EmailsDistinct(users) && i < |users|
    ensures FindByEmail(users, users[i].email) == Some(i)
  {
  }

  /** Appending a user whose email is new keeps the emails distinct. */
  lemma AppendNewEmail(users: seq<User>, u: User)
    requires EmailsDistinct(users)
    requires FindByEmail(users, u.email).None?
    ensures EmailsDistinct(users + [u])
  {
    assert forall i :: 0 <= i < |users| ==> users[i] in users;
  }

  // ----- transactions -----

  /** The transactions whose id differs from `id`, in their original order. */
  function WithoutId(txs: seq<Transaction>, id: string): (r: seq<Transaction>)
    ensures |r| <= |txs|
    ensures forall t :: t in r ==> t in txs && t.id != id
  {
    if txs == [] then []
    else (if txs[0].id == id then [] else [txs[0]]) + WithoutId(txs[1..], id)
  }

  /**
   * Exactly the transactions with that id are removed: every other
   * transaction occurs as often as before, and none with the id remains.
   */
  lemma {:induction false} WithoutIdContents(txs: seq<Transaction>, id: string)
    ensures forall t: Transaction :: t.id != id ==> multiset(WithoutId(txs, id))[t] == multiset(txs)[t]
    ensures forall t: Transaction :: t.id == id ==> multiset(WithoutId(txs, id))[t] == 0
  {
    if txs != [] {
      WithoutIdContents(txs[1..], id);
      assert txs == [txs[0]] + txs[1..];
    }
  }

  /** Removal works element by element, so the survivors keep their order. */
  lemma {:induction false} WithoutIdAppend(a: seq<Transaction>, b: seq<Transaction>, id: string)
    ensures WithoutId(a + b, id) == WithoutId(a, id) + WithoutId(b, id)
  {
    if a != [] {
      var head := if a[0].id == id then [] else [a[0]];
      assert (a + b)[0] == a[0];
      assert (a + b)[1..] == a[1..] + b;
      assert WithoutId(a + b, id) == head + WithoutId(a[1..] + b, id);
      WithoutIdAppend(a[1..], b, id);
      assert WithoutId(a, id) == head + WithoutId(a[1..], id);
      assert head + (WithoutId(a[1..], id) + WithoutId(b, id))
          == (head + WithoutId(a[1..], id)) + WithoutId(b, id);
    } else {
      assert a + b == b;
    }
  }

  /** Removing an id that no transaction carries changes nothing. */
  lemma {:induction false} WithoutIdAbsent(txs: seq<Transaction>, id: string)
    requires forall t :: t in txs ==> t.id != id
    ensures WithoutId(txs, id) == txs
  {
    if txs != [] {
      WithoutIdAbsent(txs[1..], id);
      assert txs == [txs[0]] + txs[1..];
    }
  }

  /** Deleting the same id twice is the same as deleting it once. */
  lemma WithoutIdIdempotent(txs: seq<Transaction>, id: string)
    ensures WithoutId(WithoutId(txs, id), id) == WithoutId(txs, id)
  {
    var r := WithoutId(txs, id);
    WithoutIdContents(txs, id);
    forall t | t in r ensures t.id != id {
      assert multiset(r)[t] > 0;
    }
    WithoutIdAbsent(r, id);
  }

  // ----- budgets -----

  /** At most one budget per category. */
  predicate AtMostOnePerCategory(budgets: seq<Budget>) {
    forall i, j :: 0 <= i < j < |budgets| ==> budgets[i].category != budgets[j].category
  }

  /** The budgets of every category but `category`, in their original order. */
  function WithoutCategory(budgets: seq<Budget>, category: string): (r: seq<Budget>)
    ensures |r| <= |budgets|
    ensures forall b :: b in r ==> b in budgets && b.category != category
  {
    if budgets == [] then []
    else (if budgets[0].category == category then [] else [budgets[0]]) + WithoutCategory(budgets[1..], category)
  }

  /** Exactly the budgets of other categories remain. */
  lemma {:induction false} WithoutCategoryContents(budgets: seq<Budget>, category: string)
    ensures forall b :: b in WithoutCategory(budgets, category) <==> b in budgets && b.category != category
  {
    if budgets != [] {
      WithoutCategoryContents(budgets[1..], category);
      assert budgets == [budgets[0]] + budgets[1..];
    }
  }

  lemma {:induction false} WithoutCategoryAppend(a: seq<Budget>, b: seq<Budget>, category: string)
    ensures WithoutCategory(a + b, category) == WithoutCategory(a, category) + WithoutCategory(b, category)
  {
    if a != [] {
      var head := if a[0].category == category then [] else [a[0]];
      assert (a + b)[0] == a[0];
      assert (a + b)[1..] == a[1..] + b;
      assert WithoutCategory(a + b, category) == head + WithoutCategory(a[1..] + b, category);
      WithoutCategoryAppend(a[1..], b, category);
      assert WithoutCategory(a, category) == head + WithoutCategory(a[1..], category);
      assert head + (WithoutCategory(a[1..], category) + WithoutCategory(b, category))
          == (head + WithoutCategory(a[1..], category)) + WithoutCategory(b, category);
    } else {
      assert a + b == b;
    }
  }

  /** Removing a category keeps the remaining budgets free of duplicates. */
  lemma {:induction false} WithoutCategoryKeepsUnique(budgets: seq<Budget>, category: string)
    requires AtMostOnePerCategory(budgets)
    ensures AtMostOnePerCategory(WithoutCategory(budgets, category))
  {
    if budgets != [] {
      var rest := budgets[1..];
      WithoutCategoryKeepsUnique(rest, category);
      var r := WithoutCategory(rest, category);
      WithoutCategoryContents(rest, category);
      forall b | b in r ensures b.category != budgets[0].category {
        var k :| 0 <= k < |rest| && rest[k] == b;
        assert budgets[k + 1] == b;
      }
    }
  }

  /** Save a budget: drop the category's old budget, then add the new one at the end. */
  function Upsert(budgets: seq<Budget>, b: Budget): (r: seq<Budget>)
    ensures |r| > 0 && r[|r| - 1] == b
    ensures forall i :: 0 <= i < |r| - 1 ==> r[i].category != b.category
    ensures forall x :: x in budgets && x.category != b.category ==> x in r
  {
    WithoutCategoryContents(budgets, b.category);
    WithoutCategory(budgets, b.category) + [b]
  }

  /** The budgets of the other categories keep their relative order. */
  lemma UpsertKeepsOthers(budgets: seq<Budget>, b: Budget)
    ensures WithoutCategory(Upsert(budgets, b), b.category) == WithoutCategory(budgets, b.category)
  {
    var kept := WithoutCategory(budgets, b.category);
    WithoutCategoryContents(budgets, b.category);
    WithoutCategoryAppend(kept, [b], b.category);
    WithoutCategoryAbsent(kept, b.category);
    assert WithoutCategory([b], b.category) == [];
  }

  /** Removing a category no budget has changes nothing. */
  lemma {:induction false} WithoutCategoryAbsent(budgets: seq<Budget>, category: string)
    requires forall b :: b in budgets ==> b.category != category
    ensures WithoutCategory(budgets, category) == budgets
  {
    if budgets != [] {
      WithoutCategoryAbsent(budgets[1..], category);
      assert budgets == [budgets[0]] + budgets[1..];
    }
  }

  /** Saving a budget keeps "at most one budget per category". */
  lemma UpsertKeepsUnique(budgets: seq<Budget>, b: Budget)
    requires AtMostOnePerCategory(budgets)
    ensures AtMostOnePerCategory(Upsert(budgets, b))
  {
    WithoutCategoryKeepsUnique(budgets, b.category);
  }
}
