/**
 * What the cart page knows about checkout: the logged-in session, the handle
 * the payment drop-in hands back, the request body posted for payment, and the
 * two conditions that gate the payment section and its pay button.
 * JavaScript truthiness is written out: a string is truthy when non-empty, an
 * absent value is falsy.
 */
module Checkout {
  import opened Wrappers
  import opened Cart

  /** The profile part of the session; only `address` is consulted here. */
  datatype User = User(name: string, address: string)

  /** The session from the authentication context: a bearer token ("" when
      logged out) and the user profile, if any. */
  datatype Auth = Auth(token: string, user: Option<User>)

  /** The opaque instance object that the drop-in widget hands back. */
  datatype Widget = Widget(handle: nat)

  /** The body posted to the payment endpoint. */
  datatype PaymentRequest = PaymentRequest(nonce: string, cart: seq<Item>)

  /** `auth?.token` is truthy. */
  predicate HasToken(auth: Auth) {
    auth.token != ""
  }

  /** `auth?.user?.address` is truthy. */
  predicate HasAddress(auth: Auth) {
    auth.user.Some? && auth.user.value.address != ""
  }

  /** The condition under which the drop-in and the pay button are rendered:
      the negation of `!clientToken || !auth?.token || !cart?.length`. */
  predicate PaymentShown(clientToken: string, auth: Auth, cartLength: nat) {
    !(clientToken == "" || !HasToken(auth) || cartLength == 0)
  }

  /** The pay button's `isDisabled`: `!instance || !auth?.user?.address`. */
  predicate PayDisabled(instance: Option<Widget>, auth: Auth) {
    instance.None? || !HasAddress(auth)
  }

  /** A click on the pay button reaches `handlePayment`: the button is
      rendered, not disabled, and not showing its loading state (a button in
      its loading state does not accept clicks). */
  predicate PayClickable(clientToken: string, auth: Auth, cartLength: nat, instance: Option<Widget>, loading: bool) {
    PaymentShown(clientToken, auth, cartLength) && !PayDisabled(instance, auth) && !loading
  }
}
