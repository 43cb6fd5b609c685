/** The reward program of a brand and the accounts of all its customers: one transaction
    changes the reference service of every account. */
module BrandRewards {
  import opened Prelude
  import opened Wallets
  import opened PointBoxes
  import opened RewardAccounts
  import opened RewardDesk

  class RewardProgram {
    const accounts: seq<RewardAccount>
    const wallets: seq<Wallet>
    ghost const prices: map<nat, int>
    var reference: Option<Service>

    constructor (accounts: seq<RewardAccount>, wallets: seq<Wallet>, ghost prices: map<nat, int>)
      ensures this.accounts == accounts && this.wallets == wallets && this.prices == prices && reference == None
    {
      this.accounts, this.wallets, this.prices := accounts, wallets, prices;
      reference := None;
    }

    /** Each account has a wallet of its own. */
    ghost predicate Separate() {
      && |wallets| == |accounts|
      && (forall i :: 0 <= i < |accounts| ==> accounts[i].wallet == wallets[i] && accounts[i].prices == prices)
      && (forall i, j :: 0 <= i < j < |accounts| ==> accounts[i] != accounts[j] && wallets[i] != wallets[j])
    }

    /** Give the first n accounts back what they had. */
    method Rollback(n: nat, saved: seq<Account>, completions: seq<seq<nat>>)
      requires Separate() && n <= |accounts| && |saved| == |completions| == n
      requires forall i :: 0 <= i < n ==> saved[i].id == accounts[i].id
      modifies accounts, wallets
      ensures forall i :: 0 <= i < n ==>
        accounts[i].State() == saved[i] && accounts[i].completions == completions[i]
      ensures forall i :: n <= i < |accounts| ==>
        accounts[i].State() == old(accounts[i].State()) && accounts[i].completions == old(accounts[i].completions)
    {
      var k := 0;
      while k < n
        invariant k <= n
        invariant forall i :: 0 <= i < k ==>
          accounts[i].State() == saved[i] && accounts[i].completions == completions[i]
        invariant forall i :: n <= i < |accounts| ==>
          accounts[i].State() == old(accounts[i].State()) && accounts[i].completions == old(accounts[i].completions)
      {
        accounts[k].Rollback(saved[k], completions[k]);
        k := k + 1;
      }
    }

    /** Change one account; every other account is as it was. */
    method SwitchOne(k: nat, s: Service, at: int) returns (ok: bool)
      requires Separate() && k < |accounts| && Priced(prices, s)
      requires forall i :: 0 <= i < |accounts| ==> accounts[i].Valid()
      modifies accounts[k], wallets[k]
      ensures ok ==> Switched(old(accounts[k].State()), s, at) == Some(accounts[k].State())
      ensures !ok ==> Switched(old(accounts[k].State()), s, at).None?
      ensures forall i :: 0 <= i < |accounts| ==> accounts[i].Valid()
      ensures forall i :: 0 <= i < |accounts| && i != k ==>
        accounts[i].State() == old(accounts[i].State()) && accounts[i].completions == old(accounts[i].completions)
    {
      hide Inv, Rebased, FullBoxes, Switched;
      ok := accounts[k].SetActiveReferenceService(s, at);
    }

    /** Change one account after the other until one refuses; the first n are saved. */
    method SwitchEach(s: Service, at: int) returns (ok: bool, n: nat, saved: seq<Account>, completions: seq<seq<nat>>)
      requires Separate() && Priced(prices, s) && forall i :: 0 <= i < |accounts| ==> accounts[i].Valid()
      modifies accounts, wallets
      ensures n <= |accounts| && |saved| == |completions| == n
      ensures forall i :: 0 <= i < n ==>
        saved[i] == old(accounts[i].State()) && completions[i] == old(accounts[i].completions)
      ensures forall i :: n <= i < |accounts| ==>
        accounts[i].State() == old(accounts[i].State()) && accounts[i].completions == old(accounts[i].completions)
      ensures ok ==> n == |accounts| && forall i :: 0 <= i < n ==>
        Switched(saved[i], s, at) == Some(accounts[i].State()) && accounts[i].Valid()
      ensures !ok ==> 0 < n && Switched(saved[n - 1], s, at).None?
    {
      hide Inv, Rebased, FullBoxes, Switched, RewardAccount.Valid, RewardAccount.State;
      saved, completions, n := [], [], 0;
      while n < |accounts|
        invariant n <= |accounts| && |saved| == |completions| == n
        invariant forall i :: 0 <= i < n ==>
          saved[i] == old(accounts[i].State()) && completions[i] == old(accounts[i].completions)
        invariant forall i :: 0 <= i < n ==> Switched(saved[i], s, at) == Some(accounts[i].State())
        invariant forall i :: 0 <= i < |accounts| ==> accounts[i].Valid()
        invariant forall i :: n <= i < |accounts| ==>
          accounts[i].State() == old(accounts[i].State()) && accounts[i].completions == old(accounts[i].completions)
      {
        saved, completions := saved + [accounts[n].State()], completions + [accounts[n].completions];
        ok := SwitchOne(n, s, at);
        n := n + 1;
        if !ok { return; }
      }
      return true, n, saved, completions;
    }

    /** Change the reference service of every account, or of none: one refused account undoes
        them all. */
    method SetActiveReferenceService(s: Service, at: int) returns (ok: bool)
      requires Separate() && Priced(prices, s) && forall i :: 0 <= i < |accounts| ==> accounts[i].Valid()
      modifies this, accounts, wallets
      ensures forall i :: 0 <= i < |accounts| ==> accounts[i].Valid()
      ensures ok <==> IsValidReference(s) && (
                      forall i :: 0 <= i < |accounts| ==> Switched(old(accounts[i].State()), s, at).Some?)
      ensures ok ==> reference == Some(s)
      ensures ok ==> forall i :: 0 <= i < |accounts| ==>
        Switched(old(accounts[i].State()), s, at) == Some(accounts[i].State())
      ensures !ok ==> reference == old(reference)
      ensures !ok ==> forall i :: 0 <= i < |accounts| ==> accounts[i].State() == old(accounts[i].State())
    {
      hide Inv, FullBoxes, Switched, IsValidReference;
      if !IsValidReference(s) { return false; }
      var n, saved, completions;
      ok, n, saved, completions := SwitchEach(s, at);
      if ok { reference := Some(s); } else { Rollback(n, saved, completions); }
    }
  }
}
