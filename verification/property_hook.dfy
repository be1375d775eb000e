/** The property rewrite: the hook placed over `__system_property_read_callback`
    (`my_hook`) and the callback it interposes (`handle_system_property`).

    Function pointers are values of `Callback`; the process-wide pointer
    `o_callback` is the explicit `HookState`. The original
    `__system_property_read_callback` is not modelled beyond its one promise:
    it delivers the property it was asked about to the callback it was given,
    once. */
module PropertyHook {
  import opened Common

  /** A callback pointer: the interposed handler, or any other function. */
  datatype Callback = Interposed | Foreign(address: nat)

  /** One callback delivery: `(cookie, name, value, serial)`. */
  datatype Delivery = Delivery(cookie: nat, name: Bytes, value: Bytes, serial: uint32)

  /** A call made to a callback. */
  datatype Call = Call(callee: Callback, delivery: Delivery)

  /** A call to the original `__system_property_read_callback(pi, callback, cookie)`. */
  datatype ReadRequest = ReadRequest(propInfo: nat, callback: Callback, cookie: nat)

  /** The saved original callback `o_callback`; `None` is the null it starts as. */
  datatype HookState = HookState(savedCallback: Option<Callback>)

  /** The one property whose value is rewritten, and the value it gets. */
  const FirstApiLevel := FromAscii("ro.product.first_api_level")
  const SpoofedApiLevel := FromAscii("33")

  /** `handle_system_property`: forwards the delivery to `original`, with the
      value replaced by "33" when the name is exactly the first-API-level key. */
  function HandleSystemProperty(original: Callback, d: Delivery): (calls: seq<Call>)
    ensures |calls| == 1
    ensures calls[0].callee == original
    ensures calls[0].delivery.cookie == d.cookie
    ensures calls[0].delivery.name == d.name
    ensures calls[0].delivery.serial == d.serial
    ensures d.name == FirstApiLevel ==> calls[0].delivery.value == SpoofedApiLevel
    ensures d.name != FirstApiLevel ==> calls[0].delivery == d
  {
    if d.name == FirstApiLevel then
      [Call(original, d.(value := SpoofedApiLevel))]
    else
      [Call(original, d)]
  }

  /** `my_hook`: remembers the caller's callback and asks the original for the
      same property and cookie, with the interposed handler as the callback. */
  function MyHook(s: HookState, pi: nat, callback: Callback, cookie: nat): (r: (HookState, ReadRequest))
    ensures r.0.savedCallback == Some(callback)
    ensures r.1.propInfo == pi && r.1.cookie == cookie
    ensures r.1.callback == Interposed
  {
    (HookState(Some(callback)), ReadRequest(pi, Interposed, cookie))
  }

  /** What a delivery to `callee` turns into: the interposed handler forwards
      through the saved pointer, which must have been set (calling it while null
      would crash); any other callee receives the delivery as it is. */
  function Deliver(s: HookState, callee: Callback, d: Delivery): seq<Call>
    requires callee == Interposed ==> s.savedCallback.Some?
  {
    if callee == Interposed then HandleSystemProperty(s.savedCallback.value, d)
    else [Call(callee, d)]
  }

  /** A whole hooked read: the caller asks for property `pi`, `my_hook` runs, and
      the original delivers `d` (the property's name, value and serial, with the
      cookie it was given) to the callback it received. */
  function HookedRead(s: HookState, pi: nat, callback: Callback, cookie: nat,
                      name: Bytes, value: Bytes, serial: uint32): (r: (HookState, seq<Call>))
    ensures r.0.savedCallback == Some(callback)
    ensures |r.1| == 1 && r.1[0].callee == callback
    ensures r.1[0].delivery.cookie == cookie && r.1[0].delivery.serial == serial
    ensures r.1[0].delivery.name == name
  {
    var (s', request) := MyHook(s, pi, callback, cookie);
    (s', Deliver(s', request.callback, Delivery(request.cookie, name, value, serial)))
  }

  /** Through the hook, a read reaches the caller's own callback exactly once,
      with its cookie, name and serial, and with the value rewritten only for the
      first-API-level key; for every other key it is exactly what an unhooked read
      delivers. */
  lemma HookedReadForwardsOnce(s: HookState, pi: nat, callback: Callback, cookie: nat,
                               name: Bytes, value: Bytes, serial: uint32)
    ensures var (_, calls) := HookedRead(s, pi, callback, cookie, name, value, serial);
      && |calls| == 1
      && calls[0].callee == callback
      && calls[0].delivery.cookie == cookie
      && calls[0].delivery.name == name
      && calls[0].delivery.serial == serial
      && calls[0].delivery.value == (if name == FirstApiLevel then SpoofedApiLevel else value)
    ensures callback != Interposed && name != FirstApiLevel ==>
      HookedRead(s, pi, callback, cookie, name, value, serial).1
        == Deliver(s, callback, Delivery(cookie, name, value, serial))
  {
    var (s', request) := MyHook(s, pi, callback, cookie);
    var calls := HandleSystemProperty(callback, Delivery(cookie, name, value, serial));
    assert HookedRead(s, pi, callback, cookie, name, value, serial).1 == calls;
  }

  /** The rewrite is idempotent and ignores the original value of the key: handling
      an already forwarded delivery forwards the same thing again, and two
      deliveries of the key that differ only in their value are forwarded alike. */
  lemma RewriteIdempotent(original: Callback, d: Delivery, otherValue: Bytes)
    ensures HandleSystemProperty(original, HandleSystemProperty(original, d)[0].delivery)
              == HandleSystemProperty(original, d)
    ensures d.name == FirstApiLevel ==>
      HandleSystemProperty(original, d.(value := otherValue)) == HandleSystemProperty(original, d)
  {
  }

  /** Two concrete deliveries: the first-API-level key reported as "30" is
      forwarded as "33"; the SDK version "34" is forwarded unchanged. */
  lemma RewriteExamples(original: Callback, cookie: nat, serial: uint32)
    ensures HandleSystemProperty(original, Delivery(cookie, FromAscii("ro.product.first_api_level"), FromAscii("30"), serial))[0].delivery.value
              == FromAscii("33")
    ensures HandleSystemProperty(original, Delivery(cookie, FromAscii("ro.build.version.sdk"), FromAscii("34"), serial))[0].delivery.value
              == FromAscii("34")
  {
    assert |FromAscii("ro.build.version.sdk")| != |FirstApiLevel|;
  }
}
