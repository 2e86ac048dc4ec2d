/** The coded error type services return: an ID, a fixed message, a
    documentation link derived from the ID, and optionally an underlying error
    attached in place by `Wrap`. */
module ProperErrors {
  import opened GoBase

  const DescBase := "https://ledgerlord.proper.ai/errors/"

  /** The text `Error()` renders: "ID: Err desc:Desc", plus " w:" and the
      wrapped error's text when there is one. */
  function Format(id: string, err: string, desc: string, wrapped: Option<string>): (s: string)
    ensures |s| >= |id| + 8 && s[..|id|] == id && s[|id|..|id| + 2] == ": "
  {
    var plain := id + ": " + err + " desc:" + desc;
    match wrapped
    case None => plain
    case Some(w) => plain + " w:" + w
  }

  /** The text up to the first ':' (the ID of a well-formed message). */
  function IdOf(s: string): string {
    if s == [] || s[0] == ':' then [] else [s[0]] + IdOf(s[1..])
  }

  /** A wrapped message only appends: the unwrapped rendering is a prefix. */
  lemma WrappedExtendsPlain(id: string, err: string, desc: string, w: string)
    ensures Format(id, err, desc, Some(w)) == Format(id, err, desc, None) + " w:" + w
  {
  }

  lemma {:induction false} IdOfPrefix(id: string, rest: string)
    requires ':' !in id
    ensures IdOf(id + ":" + rest) == id
    decreases |id|
  {
    if id != [] {
      assert (id + ":" + rest)[1..] == id[1..] + ":" + rest;
      IdOfPrefix(id[1..], rest);
    }
  }

  /** Any ID without a ':' can be read back from the front of the message. */
  lemma IdRoundTrip(id: string, err: string, desc: string, wrapped: Option<string>)
    requires ':' !in id
    ensures IdOf(Format(id, err, desc, wrapped)) == id
  {
    var s := Format(id, err, desc, wrapped);
    var rest := s[|id| + 1..];
    assert s == id + ":" + rest;
    IdOfPrefix(id, rest);
  }

  // Literal facts for the test message, kept apart so each stays cheap.
  lemma LaunchingBotHead()
    ensures "0004" + ": " + "Error while launching bot" + " desc:" == "0004: Error while launching bot desc:"
  {
  }

  lemma LaunchingBotLink()
    ensures DescBase + "0004" == "https://ledgerlord.proper.ai/errors/0004"
  {
  }

  lemma LaunchingBotHost()
    ensures "0004: Error while launching bot desc:" + "https://ledgerlord.proper.ai/"
         == "0004: Error while launching bot desc:https://ledgerlord.proper.ai/"
  {
  }

  lemma LaunchingBotPath()
    ensures "0004: Error while launching bot desc:https://ledgerlord.proper.ai/" + "errors/0004"
         == "0004: Error while launching bot desc:https://ledgerlord.proper.ai/errors/0004"
  {
  }

  lemma LaunchingBotDesc()
    ensures "0004: Error while launching bot desc:" + (DescBase + "0004")
         == "0004: Error while launching bot desc:https://ledgerlord.proper.ai/errors/0004"
  {
    var head := "0004: Error while launching bot desc:";
    var host := "https://ledgerlord.proper.ai/";
    var path := "errors/0004";
    LaunchingBotLink();
    assert DescBase + "0004" == host + path;
    assert head + (host + path) == (head + host) + path;
    LaunchingBotHost();
    LaunchingBotPath();
  }

  lemma LaunchingBotTail(plain: string)
    requires plain == "0004: Error while launching bot desc:https://ledgerlord.proper.ai/errors/0004"
    ensures plain + " w:" + "foo" == "0004: Error while launching bot desc:https://ledgerlord.proper.ai/errors/0004 w:foo"
  {
  }

  /** The message the package's test expects for bot launch failures wrapping "foo". */
  lemma LaunchingBotMessage()
    ensures Format("0004", "Error while launching bot", DescBase + "0004", Some("foo"))
         == "0004: Error while launching bot desc:https://ledgerlord.proper.ai/errors/0004 w:foo"
  {
    var head := "0004" + ": " + "Error while launching bot" + " desc:";
    var plain := head + (DescBase + "0004");
    LaunchingBotHead();
    LaunchingBotDesc();
    LaunchingBotTail(plain);
  }

  /** A `*Error`: the object the package-level errors point at, shared by every
      caller that returns them. */
  class Error {
    var id: string
    var err: string
    var desc: string
    var wError: Option<GoError>

    /** `New(id, err)`. */
    constructor New(id: string, err: string)
      ensures this.id == id && this.err == err
      ensures desc == DescBase + id
      ensures wError == None
    {
      this.id := id;
      this.err := err;
      this.desc := DescBase + id;
      this.wError := None;
    }

    /** `Error()`: the wrapped error is rendered with its own text. */
    function Message(): (s: string)
      reads this
      ensures wError.None? ==> s == id + ": " + err + " desc:" + desc
      ensures wError.Some? ==> s == id + ": " + err + " desc:" + desc + " w:" + wError.value.message
    {
      Format(id, err, desc, if wError.Some? then Some(wError.value.message) else None)
    }

    /** Attaches `e` to this very object (replacing any earlier one) and
        returns the receiver; a nil `e` (`None`) clears the wrapped error. */
    method Wrap(e: Option<GoError>) returns (p: Error)
      modifies this`wError
      ensures p == this
      ensures wError == e
      ensures Message() == Format(id, err, desc, if e.Some? then Some(e.value.message) else None)
    {
      wError := e;
      p := this;
    }
  }

  /** The four package-level errors, created once and shared. */
  class Registry {
    const failedToLogin: Error
    const accountNotFound: Error
    const secondFactorAuth: Error
    const launchingBot: Error

    constructor ()
      ensures fresh(failedToLogin) && fresh(accountNotFound) && fresh(secondFactorAuth) && fresh(launchingBot)
      ensures Distinct()
      ensures failedToLogin.id == "0001" && failedToLogin.err == "Failed to login"
      ensures accountNotFound.id == "0002" && accountNotFound.err == "Account not found"
      ensures secondFactorAuth.id == "0003" && secondFactorAuth.err == "Error during second factor authentication"
      ensures launchingBot.id == "0004" && launchingBot.err == "Error while launching bot"
      ensures forall e :: e in All() ==> e.desc == DescBase + e.id && e.wError == None
    {
      failedToLogin := new Error.New("0001", "Failed to login");
      accountNotFound := new Error.New("0002", "Account not found");
      secondFactorAuth := new Error.New("0003", "Error during second factor authentication");
      launchingBot := new Error.New("0004", "Error while launching bot");
    }

    function All(): set<Error> {
      {failedToLogin, accountNotFound, secondFactorAuth, launchingBot}
    }

    predicate Distinct() {
      failedToLogin != accountNotFound && failedToLogin != secondFactorAuth && failedToLogin != launchingBot &&
      accountNotFound != secondFactorAuth && accountNotFound != launchingBot && secondFactorAuth != launchingBot
    }
  }

  /** Wrapping twice through the returned alias: only the last wrapped error
      remains, and it is visible through the original reference. */
  method WrapTwice(p: Error, first: GoError, second: GoError) returns (q: Error)
    modifies p`wError
    ensures q == p && p.wError == Some(second)
    ensures p.Message() == Format(p.id, p.err, p.desc, Some(second.message))
  {
    var alias := p.Wrap(Some(first));
    q := alias.Wrap(Some(second));
  }

  /** Wrapping nil after wrapping an error clears it: the object, and every
      holder of it, renders the plain message again. */
  method WrapThenClear(p: Error, cause: GoError) returns (q: Error)
    modifies p`wError
    ensures q == p && p.wError == None
    ensures p.Message() == Format(p.id, p.err, p.desc, None)
    ensures p.Message() == p.id + ": " + p.err + " desc:" + p.desc
  {
    var alias := p.Wrap(Some(cause));
    q := alias.Wrap(None);
  }

  /** The package test: wrapping the shared launching-bot error with "foo"
      changes the message every holder of that error sees; the other three
      shared errors are untouched. */
  method WrapLaunchingBot(registry: Registry) returns (message: string)
    requires registry.Distinct()
    requires registry.launchingBot.id == "0004" && registry.launchingBot.err == "Error while launching bot"
    requires registry.launchingBot.desc == DescBase + "0004"
    modifies registry.launchingBot`wError
    ensures message == "0004: Error while launching bot desc:https://ledgerlord.proper.ai/errors/0004 w:foo"
    ensures registry.launchingBot.Message() == message
    ensures registry.failedToLogin.wError == old(registry.failedToLogin.wError)
    ensures registry.accountNotFound.wError == old(registry.accountNotFound.wError)
    ensures registry.secondFactorAuth.wError == old(registry.secondFactorAuth.wError)
  {
    var e := registry.launchingBot.Wrap(Some(GoError("foo")));
    message := e.Message();
    LaunchingBotMessage();
  }
}
