/** How accounts are named. */
module Accounts {

  function AccountId(ownerType: string, ownerId: string, accountType: string): string {
    if ownerId == "" then "acc_" + ownerType + "_" + accountType
    else "acc_" + ownerId + "_" + accountType
  }

  function UserWallet(userId: string): string { AccountId("user", userId, "user_wallet") }

  function MerchantPayable(merchantId: string): string { AccountId("merchant", merchantId, "merchant_payable") }

  function MerchantHoldback(merchantId: string): string { AccountId("merchant", merchantId, "merchant_holdback") }

  function ProviderClearing(code: string): string { AccountId("provider", code, "provider_clearing") }

  function PlatformFeeRevenue(): string { AccountId("platform", "", "platform_fee_revenue") }

  function PlatformFloat(): string { AccountId("platform", "", "platform_float") }

  predicate EndsWith(s: string, suffix: string) {
    |s| >= |suffix| && s[|s| - |suffix|..] == suffix
  }

  /** The accounts a consumer spends from, recognised by name. */
  predicate IsUserWallet(account: string) { EndsWith(account, "_user_wallet") }

  /** An account of another type whose name ends in other letters is not named like a wallet. */
  lemma NotWallet(ownerType: string, ownerId: string, accountType: string)
    requires |accountType| >= 2
    requires accountType[|accountType| - 1] != 't' || accountType[|accountType| - 2] != 'e'
    ensures !IsUserWallet(AccountId(ownerType, ownerId, accountType))
  {
    var a := AccountId(ownerType, ownerId, accountType);
    assert a[|a| - 1] == accountType[|accountType| - 1];
    assert a[|a| - 2] == accountType[|accountType| - 2];
  }

  /** Only wallets are named like wallets: no other account of the system can be mistaken for one. */
  lemma WalletNames(id: string)
    ensures IsUserWallet(UserWallet(id))
    ensures !IsUserWallet(MerchantPayable(id)) && !IsUserWallet(MerchantHoldback(id))
    ensures !IsUserWallet(ProviderClearing(id))
    ensures !IsUserWallet(PlatformFeeRevenue()) && !IsUserWallet(PlatformFloat())
  {
    var head := "acc_" + (if id == "" then "user" else id);
    assert UserWallet(id) == head + "_user_wallet";
    assert UserWallet(id)[|head|..] == "_user_wallet";
    NotWallet("merchant", id, "merchant_payable");
    NotWallet("merchant", id, "merchant_holdback");
    NotWallet("provider", id, "provider_clearing");
    NotWallet("platform", "", "platform_fee_revenue");
    NotWallet("platform", "", "platform_float");
  }

  /** Two owners share a wallet only if they are the same owner, as long as neither id is empty. */
  lemma WalletsAreDistinct(u: string, v: string)
    requires u != "" && v != "" && UserWallet(u) == UserWallet(v)
    ensures u == v
  {
    var a := UserWallet(u);
    assert a == "acc_" + u + "_user_wallet" == "acc_" + v + "_user_wallet";
    assert |u| == |v|;
    assert u == a[4..4 + |u|] && v == a[4..4 + |v|];
  }
}
