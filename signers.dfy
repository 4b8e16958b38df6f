/** The signer-list normalisation that `OnMintCommand` in
    neo-cli/CLI/MainService.Other.cs performs before it builds its
    transaction: an optional sender is moved or added to the front of an
    optional list of signer accounts, and every account becomes a signer with
    scope CalledByEntry. */
module SignerNormalizer {
  import opened NeoTypes

  /** The position of the first occurrence of `x` in `s`, or -1 when there is
      none (List.IndexOf). */
  function IndexOf<T(==)>(s: seq<T>, x: T): (i: int)
    ensures -1 <= i < |s|
    ensures i == -1 <==> x !in s
    ensures 0 <= i ==> s[i] == x && x !in s[..i]
  {
    if s == [] then -1
    else if s[0] == x then 0
    else
      var j := IndexOf(s[1..], x);
      if j < 0 then -1
      else
        assert s[..j + 1] == [s[0]] + s[1..][..j];
        j + 1
  }

  /** List.Remove: deletes the first occurrence of `x`, if any, and nothing else. */
  function Remove<T(==)>(s: seq<T>, x: T): (r: seq<T>)
    ensures x !in s ==> r == s
    ensures x in s ==> |r| == |s| - 1 && multiset(r) == multiset(s) - multiset{x}
    ensures x in s ==> exists i | 0 <= i < |s| :: s[i] == x && x !in s[..i] && r == s[..i] + s[i + 1..]
  {
    var i := IndexOf(s, x);
    if i < 0 then s
    else
      assert s == s[..i] + [s[i]] + s[i + 1..];
      s[..i] + s[i + 1..]
  }

  /** No account occurs twice. */
  predicate Distinct<T(==)>(s: seq<T>) {
    forall i, j | 0 <= i < j < |s| :: s[i] != s[j]
  }

  /** Reorders the account list so that the sender, when one is given, comes
      first. The sender is moved to the front when it occurs
      later, prepended when it is absent, and the list is left alone when
      there is no sender or the sender is already first. */
  function NormalizeAccounts(sender: Option<UInt160>, accounts: seq<UInt160>): (r: seq<UInt160>)
    ensures sender.Some? ==> |r| > 0 && r[0] == sender.value
    ensures sender.None? || (|accounts| > 0 && accounts[0] == sender.value) ==> r == accounts
    ensures sender.Some? && sender.value !in accounts ==> r == [sender.value] + accounts
    ensures sender.Some? && sender.value in accounts ==> |r| == |accounts|
    ensures sender.Some? && sender.value !in accounts ==> |r| == |accounts| + 1
  {
    match sender
    case None => accounts
    case Some(s) =>
      // `s in accounts` makes `accounts` non-empty, so `accounts[0]` is in bounds
      if s in accounts && accounts[0] != s then [s] + Remove(accounts, s)
      else if s !in accounts then [s] + accounts
      else accounts
  }

  /** The final mapping: every account becomes a signer with scope
      CalledByEntry, in order. */
  function ToSigners(accounts: seq<UInt160>): (signers: seq<Signer>)
    ensures |signers| == |accounts|
    ensures forall i | 0 <= i < |accounts| :: signers[i].account == accounts[i] && signers[i].scopes == CalledByEntry
  {
    if accounts == [] then []
    else [Signer(accounts[0], CalledByEntry)] + ToSigners(accounts[1..])
  }

  /** The accounts of a signer sequence, in order. */
  function AccountsOf(signers: seq<Signer>): seq<UInt160> {
    if signers == [] then [] else [signers[0].account] + AccountsOf(signers[1..])
  }

  /** The whole normalisation: the signers of the mint transaction. They are
      empty unless a signer list is given and a wallet is open. */
  function Normalize(walletOpen: bool, sender: Option<UInt160>, signerAccounts: Option<seq<UInt160>>): (signers: seq<Signer>)
    ensures signerAccounts.None? || !walletOpen ==> signers == []
    ensures forall i | 0 <= i < |signers| :: signers[i].scopes == CalledByEntry
    ensures signerAccounts.Some? && walletOpen && sender.Some? ==>
              |signers| > 0 && signers[0] == Signer(sender.value, CalledByEntry)
  {
    if signerAccounts.Some? && walletOpen then ToSigners(NormalizeAccounts(sender, signerAccounts.value))
    else []
  }

  // ---------------------------------------------------------------------------
  // Properties of the normalisation

  /** Mapping accounts to signers loses nothing: the accounts can be read back. */
  lemma {:induction false} AccountsOfToSigners(accounts: seq<UInt160>)
    ensures AccountsOf(ToSigners(accounts)) == accounts
  {
    if accounts != [] {
      AccountsOfToSigners(accounts[1..]);
      assert ToSigners(accounts)[1..] == ToSigners(accounts[1..]);
    }
  }

  /** With a list and an open wallet, signer i's account is account i of the
      normalised list. */
  lemma NormalizeAccountsOfSigners(sender: Option<UInt160>, accounts: seq<UInt160>)
    ensures AccountsOf(Normalize(true, sender, Some(accounts))) == NormalizeAccounts(sender, accounts)
  {
    AccountsOfToSigners(NormalizeAccounts(sender, accounts));
  }

  /** A sender found later in the list is moved to the front. Only its first
      occurrence is removed; the other accounts keep their relative order and
      the length is unchanged. */
  lemma MoveSenderToFront(x: UInt160, accounts: seq<UInt160>)
    requires x in accounts && accounts[0] != x
    ensures var i := IndexOf(accounts, x);
      0 < i < |accounts| && x !in accounts[..i] &&
      NormalizeAccounts(Some(x), accounts) == [x] + accounts[..i] + accounts[i + 1..]
    ensures |NormalizeAccounts(Some(x), accounts)| == |accounts|
  {
    var i := IndexOf(accounts, x);
    assert Remove(accounts, x) == accounts[..i] + accounts[i + 1..];
  }

  /** The normalised list is a permutation of the input, or the input plus
      the sender when the sender was absent; nothing else is added or
      dropped. */
  lemma NormalizePermutationOrExtension(sender: Option<UInt160>, accounts: seq<UInt160>)
    ensures multiset(NormalizeAccounts(sender, accounts)) ==
      if sender.Some? && sender.value !in accounts then multiset(accounts) + multiset{sender.value}
      else multiset(accounts)
  {
    if sender.Some? && sender.value in accounts && accounts[0] != sender.value {
      var x := sender.value;
      var rest := Remove(accounts, x);
      assert NormalizeAccounts(sender, accounts) == [x] + rest;
      assert multiset([x] + rest) == multiset{x} + multiset(rest);
      assert x in multiset(accounts);
    }
  }

  /** Every account of the normalised list is the sender or one of the inputs,
      and every input is still there. */
  lemma NormalizeSameAccounts(sender: Option<UInt160>, accounts: seq<UInt160>)
    ensures forall a :: a in NormalizeAccounts(sender, accounts) <==>
      a in accounts || (sender.Some? && a == sender.value)
  {
    NormalizePermutationOrExtension(sender, accounts);
    var r := NormalizeAccounts(sender, accounts);
    forall a ensures a in r <==> a in accounts || (sender.Some? && a == sender.value) {
      assert a in r <==> a in multiset(r);
      assert a in accounts <==> a in multiset(accounts);
    }
  }

  /** Deleting the first occurrence of `x` from a list without duplicates
      leaves no `x` and no duplicates. */
  lemma RemoveDistinct(s: seq<UInt160>, x: UInt160)
    requires Distinct(s) && x in s
    ensures Distinct(Remove(s, x)) && x !in Remove(s, x)
  {
    var i := IndexOf(s, x);
    var r := Remove(s, x);
    assert r == s[..i] + s[i + 1..];
    forall k | 0 <= k < |r| ensures r[k] == if k < i then s[k] else s[k + 1] {
    }
    forall k | 0 <= k < |r| ensures r[k] != x {
      assert s[i] == x;
    }
  }

  /** The normalisation keeps a duplicate-free list duplicate-free. (It does
      not remove duplicates that are already there: see OtherDuplicatesKept
      and RepeatedSenderKept.) */
  lemma NormalizePreservesDistinct(sender: Option<UInt160>, accounts: seq<UInt160>)
    requires Distinct(accounts)
    ensures Distinct(NormalizeAccounts(sender, accounts))
  {
    if sender.Some? {
      var x := sender.value;
      var r := NormalizeAccounts(sender, accounts);
      if x in accounts && accounts[0] != x {
        RemoveDistinct(accounts, x);
        assert r == [x] + Remove(accounts, x);
        assert r[1..] == Remove(accounts, x);
        forall i, j | 0 <= i < j < |r| ensures r[i] != r[j] {
          if i == 0 {
            assert r[j] == r[1..][j - 1];
          } else {
            assert r[i] == r[1..][i - 1] && r[j] == r[1..][j - 1];
          }
        }
      } else if x !in accounts {
        assert r[1..] == accounts;
        forall i, j | 0 <= i < j < |r| ensures r[i] != r[j] {
          assert r[j] == accounts[j - 1];
          if i > 0 {
            assert r[i] == accounts[i - 1];
          }
        }
      }
    }
  }

  /** The normalisation does not deduplicate: an account that occurs twice
      besides the sender still occurs twice. */
  lemma OtherDuplicatesKept(a: UInt160, b: UInt160)
    requires a != b
    ensures NormalizeAccounts(Some(a), [b, a, b]) == [a, b, b]
  {
    var s := [b, a, b];
    assert s[1..] == [a, b];
    assert IndexOf(s, a) == 1;
    MoveSenderToFront(a, s);
    assert s[..1] == [b] && s[2..] == [b];
  }

  /** When the sender occurs twice after the front, only its first occurrence
      moves, so the sender ends up in the list twice. */
  lemma RepeatedSenderKept(a: UInt160, b: UInt160)
    requires a != b
    ensures NormalizeAccounts(Some(a), [b, a, a]) == [a, b, a]
  {
    var s := [b, a, a];
    assert s[1..] == [a, a];
    assert IndexOf(s, a) == 1;
    MoveSenderToFront(a, s);
    assert s[..1] == [b] && s[2..] == [a];
  }

  /** Sender A with accounts [B, A, C] gives signers [A, B, C]. */
  lemma ScenarioSenderInList(a: UInt160, b: UInt160, c: UInt160)
    requires a != b && a != c
    ensures Normalize(true, Some(a), Some([b, a, c])) ==
      [Signer(a, CalledByEntry), Signer(b, CalledByEntry), Signer(c, CalledByEntry)]
  {
    var s := [b, a, c];
    assert s[1..] == [a, c];
    assert IndexOf(s, a) == 1;
    MoveSenderToFront(a, s);
    assert s[..1] == [b] && s[2..] == [c];
    assert NormalizeAccounts(Some(a), s) == [a, b, c];
    SignersOfThree(a, b, c);
  }

  /** Sender A with accounts [B, C] gives signers [A, B, C]. */
  lemma ScenarioSenderAbsent(a: UInt160, b: UInt160, c: UInt160)
    requires a != b && a != c
    ensures Normalize(true, Some(a), Some([b, c])) ==
      [Signer(a, CalledByEntry), Signer(b, CalledByEntry), Signer(c, CalledByEntry)]
  {
    assert NormalizeAccounts(Some(a), [b, c]) == [a, b, c];
    SignersOfThree(a, b, c);
  }

  /** The three-element unfolding of ToSigners that the scenario lemmas use. */
  lemma SignersOfThree(a: UInt160, b: UInt160, c: UInt160)
    ensures ToSigners([a, b, c]) == [Signer(a, CalledByEntry), Signer(b, CalledByEntry), Signer(c, CalledByEntry)]
  {
    var r := ToSigners([a, b, c]);
    assert r[0] == Signer(a, CalledByEntry);
    assert r[1] == Signer(b, CalledByEntry);
    assert r[2] == Signer(c, CalledByEntry);
  }
}
