/**
 * The MCP package's server: construction from credentials and the `Run`
 * loop that reads requests, hands them to `HandleRequest` and writes the
 * replies.
 *
 * The endless read loop is modelled over a finite sequence of decoder
 * outcomes, one per pass of the loop. What the loop writes is the sequence
 * of responses it encodes; `encodes` tells whether writing a response would
 * succeed on a healthy output stream.
 */
module Server {
  import opened Wrappers
  import opened Json
  import opened Protocol
  import opened Handlers

  /** The credentials read from a configuration file. */
  datatype Config = Config(apiKey: string, apiSecret: string)

  /** A server; its REST client is the one built from these credentials. */
  datatype Server = Server(apiKey: string, apiSecret: string)

  const CredentialsRequired: string :=
    "COINCHECK_API_KEY and COINCHECK_API_SECRET environment variables are required"

  /** `os.Getenv`: an unset variable reads as the empty string. */
  function Getenv(env: map<string, string>, name: string): string {
    if name in env then env[name] else ""
  }

  /**
   * `NewServerWithConfig`: the credentials go to the client constructor
   * unchanged; `clientError` says whether (and with what text) building the
   * client fails.
   */
  function NewServerWithConfig(cfg: Config, clientError: (string, string) -> Option<string>): (r: Result<Server>)
    ensures r.Ok? <==> clientError(cfg.apiKey, cfg.apiSecret).None?
    ensures r.Ok? ==> r.value == Server(cfg.apiKey, cfg.apiSecret)
    ensures r.Err? ==> r.message == "failed to create coincheck client: " + clientError(cfg.apiKey, cfg.apiSecret).value
  {
    match clientError(cfg.apiKey, cfg.apiSecret)
    case Some(e) => Err("failed to create coincheck client: " + e)
    case None => Ok(Server(cfg.apiKey, cfg.apiSecret))
  }

  /** `NewServer`: credentials from the environment, refused when either is empty. */
  function NewServer(env: map<string, string>, clientError: (string, string) -> Option<string>): (r: Result<Server>)
    ensures Getenv(env, "COINCHECK_API_KEY") == "" || Getenv(env, "COINCHECK_API_SECRET") == "" ==>
              r == Err(CredentialsRequired)
    ensures r.Ok? ==> r.value.apiKey != "" && r.value.apiSecret != ""
  {
    var apiKey := Getenv(env, "COINCHECK_API_KEY");
    var apiSecret := Getenv(env, "COINCHECK_API_SECRET");
    if apiKey == "" || apiSecret == "" then
      Err(CredentialsRequired)
    else
      match clientError(apiKey, apiSecret)
      case Some(e) => Err("failed to create coincheck client: " + e)
      case None => Ok(Server(apiKey, apiSecret))
  }

  /**
   * With both credentials present, `NewServer` builds exactly what
   * `NewServerWithConfig` builds; with one missing it fails without
   * consulting the client constructor at all.
   */
  lemma NewServerGuardsThenBuilds(env: map<string, string>,
                                  clientError: (string, string) -> Option<string>,
                                  otherError: (string, string) -> Option<string>)
    ensures var apiKey, apiSecret := Getenv(env, "COINCHECK_API_KEY"), Getenv(env, "COINCHECK_API_SECRET");
            if apiKey == "" || apiSecret == "" then
              NewServer(env, clientError) == NewServer(env, otherError) == Err(CredentialsRequired)
            else
              NewServer(env, clientError) == NewServerWithConfig(Config(apiKey, apiSecret), clientError)
  {
  }

  /** `NewServerWithConfig` has no emptiness check of its own. */
  lemma ConfigPathAcceptsEmptyCredentials(clientError: (string, string) -> Option<string>)
    requires clientError("", "") == None
    ensures NewServerWithConfig(Config("", ""), clientError) == Ok(Server("", ""))
  {
  }

  /**
   * One pass of `Run`'s loop body from state `s`. A stored decoder error is
   * returned and logged again; after a stored encoder error no reply is
   * written any more.
   */
  function Step(exec: Call -> Result<Value>, marshal: Value -> Result<string>,
                encodes: Response -> bool, s: Session, input: Decoding): Session
  {
    if s.readFailed then s.(decodeErrors := s.decodeErrors + 1)
    else
      match input
      case TypeMismatch => s.(decodeErrors := s.decodeErrors + 1)
      case StreamError => s.(decodeErrors := s.decodeErrors + 1, readFailed := true)
      case Decoded(req) =>
        var resp := HandleRequest(exec, marshal, req);
        if resp.jsonrpc == "" || s.writeFailed then s
        else if encodes(resp) then s.(written := s.written + [resp])
        else s.(writeFailed := true)
  }

  /** The state of `Run` after one pass per decoder outcome in `inputs`. */
  function Served(exec: Call -> Result<Value>, marshal: Value -> Result<string>,
                  encodes: Response -> bool, inputs: seq<Decoding>): Session
  {
    if inputs == [] then Session([], 0, false, false)
    else Step(exec, marshal, encodes, Served(exec, marshal, encodes, inputs[..|inputs| - 1]), inputs[|inputs| - 1])
  }

  /** What `Run` writes for `inputs`. */
  function Written(exec: Call -> Result<Value>, marshal: Value -> Result<string>,
                   encodes: Response -> bool, inputs: seq<Decoding>): seq<Response>
  {
    Served(exec, marshal, encodes, inputs).written
  }

  /** Neither the decoder nor the encoder holds a stored error after `inputs`. */
  predicate Live(exec: Call -> Result<Value>, marshal: Value -> Result<string>,
                 encodes: Response -> bool, inputs: seq<Decoding>)
  {
    var s := Served(exec, marshal, encodes, inputs);
    !s.readFailed && !s.writeFailed
  }

  /**
   * `Run`: a decode error is logged and the loop goes on; the
   * notification's empty marker response is not written, and a response
   * that fails to be written is only logged. The loop never stops: after a
   * stream error it goes on calling `Decode`, which returns the stored
   * error each time. `decodeErrors` counts the decode errors logged.
   */
  method Run(exec: Call -> Result<Value>, marshal: Value -> Result<string>,
             encodes: Response -> bool, inputs: seq<Decoding>)
    returns (written: seq<Response>, decodeErrors: nat)
    ensures written == Written(exec, marshal, encodes, inputs)
    ensures decodeErrors == Served(exec, marshal, encodes, inputs).decodeErrors
  {
    written, decodeErrors := [], 0;
    var readFailed, writeFailed := false, false;
    var i := 0;
    while i < |inputs|
      invariant 0 <= i <= |inputs|
      invariant Session(written, decodeErrors, readFailed, writeFailed) == Served(exec, marshal, encodes, inputs[..i])
    {
      assert inputs[..i + 1][..i] == inputs[..i];
      if readFailed {
        // `Decode` returns the stored error again: logged
        decodeErrors := decodeErrors + 1;
      } else {
        match inputs[i] {
          case TypeMismatch =>
            // the value is skipped: logged, nothing written
            decodeErrors := decodeErrors + 1;
          case StreamError =>
            decodeErrors := decodeErrors + 1;
            readFailed := true;
          case Decoded(req) =>
            var resp := HandleRequest(exec, marshal, req);
            if resp.jsonrpc != "" && !writeFailed {
              if encodes(resp) {
                written := written + [resp];
              } else {
                writeFailed := true;
              }
            }
        }
      }
      i := i + 1;
    }
    assert inputs[..i] == inputs;
  }

  /** The decoder holds a stored error exactly when a stream error has occurred. */
  lemma {:induction false} ReadFailedIffStreamError(exec: Call -> Result<Value>, marshal: Value -> Result<string>,
                                                    encodes: Response -> bool, inputs: seq<Decoding>)
    ensures Served(exec, marshal, encodes, inputs).readFailed <==> StreamError in inputs
    decreases |inputs|
  {
    if inputs != [] {
      assert inputs == inputs[..|inputs| - 1] + [inputs[|inputs| - 1]];
      ReadFailedIffStreamError(exec, marshal, encodes, inputs[..|inputs| - 1]);
    }
  }

  /** A stored decoder error is final: every later pass only logs it again. */
  lemma {:induction false} ReadFailureIsFinal(exec: Call -> Result<Value>, marshal: Value -> Result<string>,
                                              encodes: Response -> bool, a: seq<Decoding>, b: seq<Decoding>)
    requires Served(exec, marshal, encodes, a).readFailed
    ensures var s := Served(exec, marshal, encodes, a);
            Served(exec, marshal, encodes, a + b) == s.(decodeErrors := s.decodeErrors + |b|)
    decreases |b|
  {
    if b == [] {
      assert a + b == a;
    } else {
      var b' := b[..|b| - 1];
      assert (a + b)[..|a + b| - 1] == a + b';
      ReadFailureIsFinal(exec, marshal, encodes, a, b');
    }
  }

  /** A stored encoder error is final: nothing more is written. */
  lemma {:induction false} WriteFailureIsFinal(exec: Call -> Result<Value>, marshal: Value -> Result<string>,
                                               encodes: Response -> bool, a: seq<Decoding>, b: seq<Decoding>)
    requires Served(exec, marshal, encodes, a).writeFailed
    ensures Served(exec, marshal, encodes, a + b).writeFailed
    ensures Written(exec, marshal, encodes, a + b) == Written(exec, marshal, encodes, a)
    decreases |b|
  {
    if b == [] {
      assert a + b == a;
    } else {
      var b' := b[..|b| - 1];
      assert (a + b)[..|a + b| - 1] == a + b';
      WriteFailureIsFinal(exec, marshal, encodes, a, b');
    }
  }

  /** From a live state, further input is served as a fresh session would serve it. */
  lemma {:induction false} ResumeFromLive(exec: Call -> Result<Value>, marshal: Value -> Result<string>,
                                          encodes: Response -> bool, a: seq<Decoding>, b: seq<Decoding>)
    requires Live(exec, marshal, encodes, a)
    ensures var s, t := Served(exec, marshal, encodes, a), Served(exec, marshal, encodes, b);
            Served(exec, marshal, encodes, a + b)
            == t.(written := s.written + t.written, decodeErrors := s.decodeErrors + t.decodeErrors)
    decreases |b|
  {
    if b == [] {
      assert a + b == a;
    } else {
      var b' := b[..|b| - 1];
      assert (a + b)[..|a + b| - 1] == a + b';
      assert (a + b)[|a + b| - 1] == b[|b| - 1];
      ResumeFromLive(exec, marshal, encodes, a, b');
    }
  }

  /**
   * The output of two consecutive stretches of input is the first one's
   * output followed by the second one's, unless the first left a stored
   * decoder or encoder error behind, after which nothing more is written.
   */
  lemma WrittenAppend(exec: Call -> Result<Value>, marshal: Value -> Result<string>,
                      encodes: Response -> bool, a: seq<Decoding>, b: seq<Decoding>)
    ensures Written(exec, marshal, encodes, a + b)
            == Written(exec, marshal, encodes, a)
               + (if Live(exec, marshal, encodes, a) then Written(exec, marshal, encodes, b) else [])
  {
    if Live(exec, marshal, encodes, a) {
      ResumeFromLive(exec, marshal, encodes, a, b);
    } else if Served(exec, marshal, encodes, a).readFailed {
      ReadFailureIsFinal(exec, marshal, encodes, a, b);
    } else {
      WriteFailureIsFinal(exec, marshal, encodes, a, b);
    }
  }

  /** Everything `Run` writes is a well-formed JSON-RPC 2.0 reply. */
  lemma {:induction false} WrittenAreReplies(exec: Call -> Result<Value>, marshal: Value -> Result<string>,
                                             encodes: Response -> bool, inputs: seq<Decoding>)
    ensures forall r :: r in Written(exec, marshal, encodes, inputs) ==> WellFormedReply(r)
    decreases |inputs|
  {
    if inputs != [] {
      WrittenAreReplies(exec, marshal, encodes, inputs[..|inputs| - 1]);
    }
  }

  /** A value of the wrong shape writes nothing, and decoding carries on with the rest of the input. */
  lemma TypeMismatchSkipped(exec: Call -> Result<Value>, marshal: Value -> Result<string>,
                            encodes: Response -> bool, a: seq<Decoding>, b: seq<Decoding>)
    ensures Written(exec, marshal, encodes, a + [TypeMismatch] + b) == Written(exec, marshal, encodes, a + b)
  {
    assert (a + [TypeMismatch])[..|a|] == a;
    WrittenAppend(exec, marshal, encodes, a + [TypeMismatch], b);
    WrittenAppend(exec, marshal, encodes, a, b);
  }

  /**
   * After a stream error nothing more is ever written, yet the loop goes on:
   * every later pass calls `Decode`, gets the stored error back and logs it,
   * so the count of logged decode errors grows with every pass.
   */
  lemma StreamErrorIsFinal(exec: Call -> Result<Value>, marshal: Value -> Result<string>,
                           encodes: Response -> bool, a: seq<Decoding>, b: seq<Decoding>)
    ensures Written(exec, marshal, encodes, a + [StreamError] + b) == Written(exec, marshal, encodes, a)
    ensures Served(exec, marshal, encodes, a + [StreamError] + b).decodeErrors
            == Served(exec, marshal, encodes, a).decodeErrors + 1 + |b|
  {
    var s := Served(exec, marshal, encodes, a);
    var a' := a + [StreamError];
    assert a'[..|a|] == a && a'[|a'| - 1] == StreamError;
    assert Served(exec, marshal, encodes, a') == Step(exec, marshal, encodes, s, StreamError);
    assert Served(exec, marshal, encodes, a').readFailed;
    ReadFailureIsFinal(exec, marshal, encodes, a + [StreamError], b);
  }

  /** After a reply fails to be written, no later reply is written either. */
  lemma WriteErrorIsFinal(exec: Call -> Result<Value>, marshal: Value -> Result<string>,
                          encodes: Response -> bool, a: seq<Decoding>, b: seq<Decoding>, req: Request)
    requires Live(exec, marshal, encodes, a)
    requires req.methodName != NotificationInitialized
    requires !encodes(HandleRequest(exec, marshal, req))
    ensures Written(exec, marshal, encodes, a + [Decoded(req)] + b) == Written(exec, marshal, encodes, a)
  {
    assert (a + [Decoded(req)])[..|a|] == a;
    WriteFailureIsFinal(exec, marshal, encodes, a + [Decoded(req)], b);
  }

  /** `notifications/initialized` writes nothing (section 4.1 of JSON-RPC 2.0). */
  lemma NotificationSuppressed(exec: Call -> Result<Value>, marshal: Value -> Result<string>,
                               encodes: Response -> bool, a: seq<Decoding>,
                               b: seq<Decoding>, req: Request)
    requires req.methodName == NotificationInitialized
    ensures Written(exec, marshal, encodes, a + [Decoded(req)] + b) == Written(exec, marshal, encodes, a + b)
  {
    assert (a + [Decoded(req)])[..|a|] == a;
    WrittenAppend(exec, marshal, encodes, a + [Decoded(req)], b);
    WrittenAppend(exec, marshal, encodes, a, b);
  }

  /**
   * Only that one method is suppressed. Any other request sent without an
   * id is answered like any request, with a null id; its reply is the
   * -32601 error exactly when the method is not one the router knows.
   */
  lemma OtherNotificationsAnswered(exec: Call -> Result<Value>, marshal: Value -> Result<string>,
                                   encodes: Response -> bool, a: seq<Decoding>, req: Request)
    requires req.methodName != NotificationInitialized && req.id == Null
    ensures var resp := HandleRequest(exec, marshal, req);
            && WellFormedReply(resp) && resp.id == Null
            && (resp.error.Some? && resp.error.value.code == MethodNotFound <==> req.methodName !in KnownMethods)
            && (Live(exec, marshal, encodes, a) && encodes(resp) ==>
                  Written(exec, marshal, encodes, a + [Decoded(req)]) == Written(exec, marshal, encodes, a) + [resp])
  {
    assert (a + [Decoded(req)])[..|a|] == a;
  }

  /**
   * Any other decoded request writes exactly its own reply, between what
   * the earlier and the later inputs write. A reply that fails to be
   * written ends the output; after a stored error the request writes nothing.
   */
  lemma RequestAnsweredInOrder(exec: Call -> Result<Value>, marshal: Value -> Result<string>,
                               encodes: Response -> bool, a: seq<Decoding>,
                               b: seq<Decoding>, req: Request)
    requires req.methodName != NotificationInitialized
    ensures var resp := HandleRequest(exec, marshal, req);
            Written(exec, marshal, encodes, a + [Decoded(req)] + b)
            == if Live(exec, marshal, encodes, a) && encodes(resp)
               then Written(exec, marshal, encodes, a) + [resp] + Written(exec, marshal, encodes, b)
               else Written(exec, marshal, encodes, a)
  {
    assert (a + [Decoded(req)])[..|a|] == a;
    WrittenAppend(exec, marshal, encodes, a + [Decoded(req)], b);
  }

  /** The number of decoded requests, other than the notification, read before any stream error. */
  function Answerable(inputs: seq<Decoding>): nat {
    if inputs == [] then 0
    else
      var before := inputs[..|inputs| - 1];
      var last := inputs[|inputs| - 1];
      Answerable(before) +
      (if StreamError !in before && last.Decoded? && last.req.methodName != NotificationInitialized
       then 1 else 0)
  }

  /** When every write succeeds, exactly one reply is written per answerable request. */
  lemma {:induction false} OneReplyPerRequest(exec: Call -> Result<Value>, marshal: Value -> Result<string>,
                                              encodes: Response -> bool, inputs: seq<Decoding>)
    requires forall r :: encodes(r)
    ensures |Written(exec, marshal, encodes, inputs)| == Answerable(inputs)
    ensures !Served(exec, marshal, encodes, inputs).writeFailed
    decreases |inputs|
  {
    if inputs != [] {
      OneReplyPerRequest(exec, marshal, encodes, inputs[..|inputs| - 1]);
      ReadFailedIffStreamError(exec, marshal, encodes, inputs[..|inputs| - 1]);
    }
  }

  /**
   * The loop as evidently intended: it returns once `Decode` reports a
   * stream error, the end of input included, rather than calling it again
   * forever. It writes the same replies as `Run` and stops reading right
   * after the first stream error.
   */
  method ServeUntilClosed(exec: Call -> Result<Value>, marshal: Value -> Result<string>,
                          encodes: Response -> bool, inputs: seq<Decoding>)
    returns (written: seq<Response>, read: nat)
    ensures read <= |inputs|
    ensures StreamError !in inputs ==> read == |inputs|
    ensures StreamError in inputs ==>
              0 < read && inputs[read - 1] == StreamError && StreamError !in inputs[..read - 1]
    ensures written == Written(exec, marshal, encodes, inputs)
  {
    written, read := [], 0;
    var decodeErrors, writeFailed := 0, false;
    while read < |inputs|
      invariant 0 <= read <= |inputs|
      invariant StreamError !in inputs[..read]
      invariant Session(written, decodeErrors, false, writeFailed) == Served(exec, marshal, encodes, inputs[..read])
    {
      assert inputs[..read + 1] == inputs[..read] + [inputs[read]];
      assert inputs[..read + 1][..read] == inputs[..read];
      var next := inputs[read];
      read := read + 1;
      match next {
        case TypeMismatch =>
          decodeErrors := decodeErrors + 1;
        case StreamError =>
          assert inputs == inputs[..read] + inputs[read..];
          ReadFailureIsFinal(exec, marshal, encodes, inputs[..read], inputs[read..]);
          return;
        case Decoded(req) =>
          var resp := HandleRequest(exec, marshal, req);
          if resp.jsonrpc != "" && !writeFailed {
            if encodes(resp) {
              written := written + [resp];
            } else {
              writeFailed := true;
            }
          }
      }
    }
    assert inputs[..read] == inputs;
  }
}
