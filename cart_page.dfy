/**
 * The cart page's own state and the event handlers that change it. The cart
 * lives in the cart context and `stored` is the browser-storage slot under the
 * key "cart"; the handlers write both. External calls (the storage write, the
 * drop-in's nonce request and the payment POST) are parameters: the caller
 * supplies how each turned out.
 */
module CartPage {
  import opened Wrappers
  import opened Cart
  import opened Checkout

  class Page {
    /** The session from the authentication context; the page only reads it. */
    var auth: Auth
    /** The cart from the cart context. */
    var cart: seq<Item>
    /** The storage slot under the key "cart": None when no entry exists. */
    var stored: Option<seq<Item>>
    /** The payment gateway's client token ("" until one arrives). */
    var clientToken: string
    /** The drop-in's instance (None while it is the initial ""). */
    var instance: Option<Widget>
    /** The pay button's loading flag. */
    var loading: bool

    /** The page as first rendered: the contexts' values, the initial hook states. */
    constructor (auth0: Auth, cart0: seq<Item>, stored0: Option<seq<Item>>)
      ensures auth == auth0 && cart == cart0 && stored == stored0
      ensures clientToken == "" && instance == None && !loading
    {
      auth, cart, stored := auth0, cart0, stored0;
      clientToken, instance, loading := "", None, false;
    }

    /** The storage slot mirrors the cart: it holds the cart, or it is absent
        and the cart is empty. */
    predicate Mirrored()
      reads this
    {
      stored == Some(cart) || (stored == None && cart == [])
    }

    /** The drop-in and pay button are rendered. */
    predicate ShowsPayment()
      reads this
    {
      PaymentShown(clientToken, auth, |cart|)
    }

    /** A click on the pay button reaches `handlePayment`. */
    predicate CanPay()
      reads this
    {
      PayClickable(clientToken, auth, |cart|, instance, loading)
    }

    /** `removeCartItem(pid)`: splice a copy at `findIndex`, set the cart, then
        write the copy to storage. When the storage write throws, the cart is
        already set and the slot keeps its old value. */
    method RemoveCartItem(pid: string, writeSucceeds: bool)
      modifies this
      ensures cart == RemovedCart(old(cart), pid)
      ensures stored == if writeSucceeds then Some(cart) else old(stored)
      ensures writeSucceeds ==> Mirrored()
      ensures |old(cart)| == 1 ==> !ShowsPayment()
      ensures auth == old(auth) && clientToken == old(clientToken)
      ensures instance == old(instance) && loading == old(loading)
    {
      var myCart := cart;
      var index := FindIndex(myCart, pid);
      myCart := SpliceDelete(myCart, index, 1);
      cart := myCart;
      if writeSucceeds {
        stored := Some(myCart);
      }
    }

    /** The Remove button of the `k`-th rendered row, which passes that row's
        `_id`: the first item with that id, at or before row `k`, goes. */
    method ClickRemove(k: nat, writeSucceeds: bool)
      requires k < |cart|
      modifies this
      ensures 0 <= FindIndex(old(cart), old(cart)[k].id) <= k
      ensures cart == old(cart)[..FindIndex(old(cart), old(cart)[k].id)] +
                     old(cart)[FindIndex(old(cart), old(cart)[k].id) + 1..]
      ensures |cart| == |old(cart)| - 1
      ensures stored == if writeSucceeds then Some(cart) else old(stored)
      ensures auth == old(auth) && clientToken == old(clientToken)
      ensures instance == old(instance) && loading == old(loading)
    {
      ghost var before := cart;
      var pid := cart[k].id;
      assert HasId(before, pid);
      RemoveCartItem(pid, writeSucceeds);
      RemoveFirstMatch(before, pid, FindIndex(before, pid));
    }

    /** The token request's effect: a reply sets the client token (an absent
        `clientToken` field reads as ""); a failed request only logs. */
    method ReceiveClientToken(reply: Option<string>)
      modifies this
      ensures clientToken == if reply.Some? then reply.value else old(clientToken)
      ensures auth == old(auth) && cart == old(cart) && stored == old(stored)
      ensures instance == old(instance) && loading == old(loading)
    {
      if reply.Some? {
        clientToken := reply.value;
      }
    }

    /** The drop-in's `onInstance` callback. */
    method ReceiveInstance(w: Widget)
      modifies this
      ensures instance == Some(w)
      ensures auth == old(auth) && cart == old(cart) && stored == old(stored)
      ensures clientToken == old(clientToken) && loading == old(loading)
    {
      instance := Some(w);
    }

    /** `handlePayment`, run to completion. `nonce` is how the drop-in's nonce
        request turned out (None: it rejected) and `postAccepted` whether the
        payment POST succeeded. Without an instance the nonce request itself
        throws. The POST body is returned; the payment succeeds exactly when
        it was sent and accepted. */
    method HandlePayment(nonce: Option<string>, postAccepted: bool) returns (request: Option<PaymentRequest>)
      modifies this
      ensures request == if instance.Some? && nonce.Some? then Some(PaymentRequest(nonce.value, old(cart))) else None
      ensures !loading
      ensures request.Some? && postAccepted ==> cart == [] && stored == None && !ShowsPayment()
      ensures !(request.Some? && postAccepted) ==> cart == old(cart) && stored == old(stored)
      ensures old(Mirrored()) ==> Mirrored()
      ensures auth == old(auth) && clientToken == old(clientToken) && instance == old(instance)
    {
      loading := true;
      if instance.None? || nonce.None? {
        request := None;
        loading := false;
        return;
      }
      request := Some(PaymentRequest(nonce.value, cart));
      if !postAccepted {
        loading := false;
        return;
      }
      loading := false;
      stored := None;
      cart := [];
    }

    /** A click on the pay button: it runs `handlePayment` only when the
        button is rendered, enabled and not loading; otherwise nothing
        happens. A payment request is only ever sent for a non-empty cart, by
        a logged-in user with an address, once a client token and a widget
        instance are present. */
    method ClickPay(nonce: Option<string>, postAccepted: bool) returns (request: Option<PaymentRequest>)
      modifies this
      ensures !old(CanPay()) ==> request == None && cart == old(cart) && stored == old(stored) && loading == old(loading)
      ensures old(CanPay()) ==>
                && request == (if nonce.Some? then Some(PaymentRequest(nonce.value, old(cart))) else None)
                && !loading
                && (request.Some? && postAccepted ==> cart == [] && stored == None)
                && (!(request.Some? && postAccepted) ==> cart == old(cart) && stored == old(stored))
      ensures request.Some? ==> old(ShowsPayment()) && !PayDisabled(old(instance), auth)
      ensures request.Some? ==> |request.value.cart| > 0 && request.value.cart == old(cart)
      ensures request.Some? ==> old(clientToken) != "" && HasToken(auth) && HasAddress(auth) && old(instance).Some?
      ensures cart != old(cart) ==> old(cart) != [] && cart == [] && stored == None && request.Some?
      ensures auth == old(auth) && clientToken == old(clientToken) && instance == old(instance)
    {
      if CanPay() {
        request := HandlePayment(nonce, postAccepted);
      } else {
        request := None;
      }
    }
  }
}
