/**
 * Properties of the page as a whole: the lock screen, the subscription relay
 * and the product page share browser storage and the `onUnlock` callback.
 */
module GateFlow {
  import opened Options
  import Subscribe
  import GateLock
  import ProductPage

  /**
   * A password unlock is persisted: every later page load, whatever the gate
   * configuration, skips the lock screen once the stored flag has been read.
   */
  lemma PasswordUnlockSurvivesReload(s: GateLock.GateState, gatePassword: string, gateEnabled: bool)
    requires GateLock.PasswordMatches(s.password, gatePassword)
    ensures var r := GateLock.SubmitPassword(s, gatePassword);
      && ProductPage.StoredUnlocked(r.storage)
      && ProductPage.ScreenFor(gateEnabled, ProductPage.StoredUnlocked(r.storage), false) == ProductPage.Storefront
  {
  }

  /** The cart handlers never disturb a stored unlock. */
  lemma CartHandlersKeepUnlock(s: ProductPage.PageState, reply: ProductPage.MutationReply,
                               lineId: string, newQuantity: int)
    requires ProductPage.StoredUnlocked(s.storage)
    ensures ProductPage.StoredUnlocked(ProductPage.AddToCart(s, reply).state.storage)
    ensures ProductPage.StoredUnlocked(ProductPage.BuyNow(s, reply).state.storage)
    ensures ProductPage.StoredUnlocked(ProductPage.UpdateQuantity(s, lineId, newQuantity, reply).state.storage)
  {
  }

  /**
   * A well-formed signup sent through the real relay is always acknowledged,
   * whatever the contacts API does and whether or not a key is configured,
   * and it never unlocks the gate.
   */
  lemma SignupThroughRelay(s: GateLock.GateState, apiKey: Option<string>, downstream: Subscribe.Downstream)
    requires s.email != "" && s.phone != "" && '@' in s.email
    ensures var request := Subscribe.Json(Subscribe.Text(s.email), Subscribe.Text(s.phone));
      var reply := Subscribe.Action("POST", request, apiKey, downstream).reply;
      var r := GateLock.Signup(s, GateLock.Answered(reply));
      && r.request == Some(request)
      && r.state.successMessage == GateLock.ThankYou && r.state.error == ""
      && r.state.email == "" && r.state.phone == ""
      && r.state.unlocked == s.unlocked && r.state.storage == s.storage
  {
  }

  /**
   * Gate enabled with password "vip2024": from the signup form, toggle to the
   * password form, submit "wrong" (refused, still locked), then "vip2024"
   * (unlocked, both keys persisted, the page shows the storefront).
   */
  lemma PasswordScenario(storage: map<string, string>)
    requires "gateUnlocked" !in storage
    ensures var s0 := GateLock.Initial(storage);
      var s1 := GateLock.Toggle(s0, "vip2024").(password := "wrong");
      var s2 := GateLock.SubmitPassword(s1, "vip2024");
      var s3 := GateLock.SubmitPassword(s2.(password := "vip2024"), "vip2024");
      && ProductPage.ScreenFor(true, ProductPage.StoredUnlocked(storage), false) == ProductPage.LockScreen
      && s1.showPasswordForm
      && s2.error == GateLock.InvalidPassword && !s2.unlocked && s2.storage == storage
      && s3.unlocked && s3.error == ""
      && s3.storage == storage["gateUnlocked" := "true"]["gateMethod" := "password"]
      && ProductPage.ScreenFor(true, ProductPage.StoredUnlocked(s3.storage), false) == ProductPage.Storefront
  {
  }
}
