/** Requests that get no answer, two answers, or an acknowledgement they should not: one input for each. */
module BunkerCases {
  import opened Wrappers
  import opened BunkerDispatch
  import opened BunkerPolicy

  /** A library that allows everything it is asked about; every template is a sign-in to one site. */
  function Permissive(): Lib {
    Lib(text => Some(Template(1, "", text, [])), (p, m, k) => true, text => None, text => (Ping, None), text => true,
        text => seq(|text|, i => 0), text => true, row => true, (recent, now) => true, (s, now) => true, (s, t) => None,
        t => false, t => None, key => true, t => Some("sign-in"), (t, s) => Some("https://site.example"), s => true,
        (a, b) => false, (stage, s) => AskEvery, url => false, url => url)
  }

  function Serving(): Env { Env(1_000_000, true, 0, [], {}, true, [], None, None, None) }

  function OwnerRoute(): Route { Route("me", "me", None, None, None, None, None, false, false, true, {}) }

  function ChildRoute(): Route {
    Route("endpoint", "child", Some("child"), Some(RequestApprove), None, None, Some("phone"), false, false, true, {})
  }

  function AppRoute(): Route {
    Route("endpoint", "child", Some("child"), None, None, Some("open sesame"), None, true, false, true, {})
  }

  function Remembered(): Client { Client("app", "App", 0, 0, true, None) }

  function StoredGrant(): Grant { Grant("child", "sign-in", "https://site.example", Allow, None, 0) }

  /** Every read answers, every signature and operation succeeds, and no write after a reply is stored. */
  function WritesFail(): Answers {
    var row := Got(Some(Remembered()));
    Answers(row, Got([]), Bound, Got(Opened(None)), row, true, row, row, (d, p, c, k) => Got(false),
            (d, s, o) => Got(Some(StoredGrant())), true, false, row)
  }

  function Sign(client: Pubkey): Request { Request(client, SignEvent, ["hello"]) }

  /** The first read of the handler is outside every `try`: when it is rejected the client hears nothing. */
  lemma ARejectedReadGoesUnanswered()
    ensures var a := WritesFail().(scoped := Threw);
      Terminals(Dispatch(Permissive(), Serving(), OwnerRoute(), Sign("app"), a)) == 0
  {
  }

  /** An owner's encryption is answered with its result and then with a failure. */
  lemma OwnerCryptoIsAnsweredTwice()
    ensures Dispatch(Permissive(), Serving(), OwnerRoute(), Request("app", Nip44Encrypt, ["peer", "text"]),
                     WritesFail()).replies
            == [Crypted(Nip44Encrypt), Error("encryption failed")]
  {
  }

  /** The template of the request below, as the library reads it. */
  function Hello(): Template { Template(1, "", "hello", []) }

  lemma HelloIsPlain()
    ensures !Sensitive(Permissive(), Hello(), None)
  {
  }

  lemma HelloIsConsidered(route: Route, client: Pubkey)
    requires route == OwnerRoute() || (route == ChildRoute() && client == "phone")
    ensures Considers(Permissive(), Serving(), route, Sign(client), WritesFail(), Hello())
  {
  }

  lemma OwnerSigns()
    ensures SignOwner(Permissive(), Serving(), OwnerRoute(), Sign("app"), WritesFail(), Hello()).replies
            == [Signed(Hello()), Error("signing failed")]
  {
    hide Sensitive, Prompt;
    HelloIsPlain();
  }

  /** A silent owner signature is answered with the signature and then with a failure. */
  lemma OwnerSignatureIsAnsweredTwice()
    ensures Dispatch(Permissive(), Serving(), OwnerRoute(), Sign("app"), WritesFail()).replies
            == [Signed(Hello()), Error("signing failed")]
  {
    hide Dispatch, SignOwner, Considers, SignDependant, SignGated, Permissive, WritesFail, Serving;
    HelloIsConsidered(OwnerRoute(), "app");
    OwnerSigns();
    ConsideredIsDecided(Permissive(), Serving(), OwnerRoute(), Sign("app"), WritesFail(), Hello());
  }

  /** So is a dependant's signature under a remembered allow. */
  lemma StoredAllowIsAnsweredTwice()
    ensures Dispatch(Permissive(), Serving(), ChildRoute(), Sign("phone"), WritesFail()).replies
            == [Signed(Hello()), Error("signing failed")]
  {
    hide Dispatch, Considers, SignOwner, SignGated, Prompt;
    HelloIsConsidered(ChildRoute(), "phone");
    ConsideredIsDecided(Permissive(), Serving(), ChildRoute(), Sign("phone"), WritesFail(), Hello());
  }

  /** An app pairing that failed with an empty message is acknowledged as if it had been stored. */
  lemma AFailedAppPairingIsAcknowledged()
    ensures var a := WritesFail().(bind := BindFailed(""));
      var req := Request("app", Connect, ["child", "open sesame"]);
      Dispatch(Permissive(), Serving(), AppRoute(), req, a).replies == [Ack]
  {
  }
}
