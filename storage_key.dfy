/**
 * The per-user storage key: the signed-in user's email with every character
 * outside [A-Za-z0-9] replaced by an underscore. Each user's transactions,
 * budgets and goals are stored under names ending in this key.
 */
module StorageKey {
  import opened Records

  predicate IsAlphaNum(c: char) {
    ('a' <= c <= 'z') || ('A' <= c <= 'Z') || ('0' <= c <= '9')
  }

  /** The email with every non-alphanumeric character replaced by '_'. */
  function Sanitize(email: string): (key: string)
    ensures |key| == |email|
    ensures forall i :: 0 <= i < |email| ==>
      key[i] == (if IsAlphaNum(email[i]) then email[i] else '_')
  {
    if email == [] then []
    else [if IsAlphaNum(email[0]) then email[0] else '_'] + Sanitize(email[1..])
  }

  /** The storage key of the session's user, or None when nobody is signed in. */
  function UserKey(currentUser: Option<User>): (key: Option<string>)
    ensures key.None? <==> currentUser.None?
    ensures key.Some? ==> key.value == Sanitize(currentUser.value.email)
  {
    match currentUser
    case None => None
    case Some(u) => Some(Sanitize(u.email))
  }

  /**
   * Whether a key lets the data be loaded or saved: the source skips both when
   * the key is missing or is the empty string (an empty email).
   */
  predicate Usable(key: Option<string>) {
    key.Some? && key.value != ""
  }

  /** A key consists of letters, digits and underscores only. */
  lemma SanitizeAlphabet(email: string)
    ensures forall i :: 0 <= i < |Sanitize(email)| ==>
      IsAlphaNum(Sanitize(email)[i]) || Sanitize(email)[i] == '_'
  {
  }

  /** An email made of letters and digits is its own key. */
  lemma SanitizeKeepsAlphaNum(email: string)
    requires forall i :: 0 <= i < |email| ==> IsAlphaNum(email[i])
    ensures Sanitize(email) == email
  {
  }

  /** Sanitizing a key changes nothing. */
  lemma SanitizeIdempotent(email: string)
    ensures Sanitize(Sanitize(email)) == Sanitize(email)
  {
    var key := Sanitize(email);
    var again := Sanitize(key);
    forall i | 0 <= i < |key| ensures again[i] == key[i] {
      assert !IsAlphaNum('_');
    }
  }

  /** Two emails share a key exactly when they agree wherever either has a letter or digit. */
  lemma SameKeyIff(a: string, b: string)
    requires |a| == |b|
    ensures Sanitize(a) == Sanitize(b) <==>
      forall i :: 0 <= i < |a| ==>
        (IsAlphaNum(a[i]) || IsAlphaNum(b[i]) ==> a[i] == b[i])
  {
    if Sanitize(a) == Sanitize(b) {
      forall i | 0 <= i < |a| && (IsAlphaNum(a[i]) || IsAlphaNum(b[i])) ensures a[i] == b[i] {
        assert Sanitize(a)[i] == Sanitize(b)[i];
      }
    }
    if forall i :: 0 <= i < |a| ==> (IsAlphaNum(a[i]) || IsAlphaNum(b[i]) ==> a[i] == b[i]) {
      forall i | 0 <= i < |a| ensures Sanitize(a)[i] == Sanitize(b)[i] {
      }
    }
  }

  /** Distinct emails can share a partition: "a.b" and "a-b" both give "a_b". */
  lemma SharedPartition()
    ensures "a.b" != "a-b"
    ensures Sanitize("a.b") == Sanitize("a-b") == "a_b"
  {
    assert "a.b"[1] != "a-b"[1];
    var k := Sanitize("a.b");
    assert k[0] == 'a' && k[1] == '_' && k[2] == 'b';
    assert k == "a_b";
    var k' := Sanitize("a-b");
    assert k'[0] == 'a' && k'[1] == '_' && k'[2] == 'b';
    assert k' == "a_b";
  }
}
