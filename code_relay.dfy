/** The hand-off of an authorization code from the callback window to the tester window: the
    callback page's message, delivered by the browser, is exactly what the tester's listener
    accepts, and only a window of the same origin receives it. */
module CodeRelay {
  import opened Web
  import AuthCallback
  import TwitchTester

  /** The message the relay effect posts last. */
  function LastPosted(st: AuthCallback.RelayState): Option<Posted> {
    if st.outbox == [] then None else Some(st.outbox[|st.outbox| - 1])
  }

  /** A successful relay from a callback page at `origin` with an opener: a tester window at
      the same origin accepts the code the callback page read; a window at any other origin
      receives nothing. The session-storage fallback uses the key the tester reads back. */
  lemma RelayedCodeArrives(st: AuthCallback.RelayState, params: AuthCallback.SearchParams, origin: string,
                           postThrows: bool, storeThrows: bool, receiverOrigin: string)
    requires AuthCallback.Code(params) != "" && !postThrows
    ensures var st' := AuthCallback.Relay(st, params, origin, true, postThrows, storeThrows);
      && LastPosted(st').Some?
      && (Deliver(LastPosted(st').value, receiverOrigin).Some? <==> receiverOrigin == origin)
      && (receiverOrigin == origin ==>
            TwitchTester.RelayedCode(Deliver(LastPosted(st').value, receiverOrigin).value, receiverOrigin)
            == Some(AuthCallback.Code(params)))
      && (!storeThrows ==> st'.sessionStorage[TwitchTester.AuthCodeKey] == AuthCallback.Code(params))
  {
    var st' := AuthCallback.Relay(st, params, origin, true, postThrows, storeThrows);
    var message := AuthCallback.RelayMessage(AuthCallback.Code(params), AuthCallback.Scope(params));
    assert st'.outbox == st.outbox + [Posted(origin, origin, message)];
    assert LastPosted(st') == Some(Posted(origin, origin, message));
  }

  /** Whatever the callback page does, every message it posts is aimed at its own origin. */
  lemma RelayStaysSameOrigin(st: AuthCallback.RelayState, params: AuthCallback.SearchParams, origin: string,
                             hasOpener: bool, postThrows: bool, storeThrows: bool, receiverOrigin: string, p: Posted)
    requires receiverOrigin != origin
    requires p in AuthCallback.Relay(st, params, origin, hasOpener, postThrows, storeThrows).outbox && p !in st.outbox
    ensures Deliver(p, receiverOrigin).None?
  {
    AuthCallback.RelaySpec(st, params, origin, hasOpener, postThrows, storeThrows);
  }
}
