/**
  The `CheckGateway` client: its configuration (account credentials, the
  live/test switch and the endpoint it selects), the last error, the two
  dispatchers with the transport passed in as a function, the parser of
  delimited responses, and the entry point through which every named
  operation is sent.
 */
module Gateway {
  import opened PhpArrays
  import opened Delimited
  import opened Dispatch
  import opened Operations

  const TEST_ENDPOINT := "https://cpsandbox.com/echeck.asmx"
  const LIVE_ENDPOINT := "https://greenbyphone.com/echeck.asmx"

  /** The two-entry endpoint table, keyed by the live flag. */
  function EndpointFor(live: bool): (url: string)
    ensures url == LIVE_ENDPOINT <==> live
    ensures url == TEST_ENDPOINT <==> !live
  {
    if live then LIVE_ENDPOINT else TEST_ENDPOINT
  }

  /** The four-line configuration summary of `__toString`. */
  function Summary(endpoint: string, clientId: string, apiPass: string): string
  {
    "Gateway Type: POST" + "\n" + "Endpoint: " + endpoint + "\n"
      + "Client ID: " + clientId + "\n" + "ApiPassword: " + apiPass + "\n"
  }

  /** The lines of the summary, without their newlines. */
  function SummaryLineList(endpoint: string, clientId: string, apiPass: string): seq<string>
  {
    ["Gateway Type: POST", "Endpoint: " + endpoint, "Client ID: " + clientId, "ApiPassword: " + apiPass, ""]
  }

  /** When no configured value contains a newline, the summary is exactly
      four lines, each ended by a newline, in this order. */
  lemma SummaryLines(endpoint: string, clientId: string, apiPass: string)
    requires '\n' !in endpoint && '\n' !in clientId && '\n' !in apiPass
    ensures Split(Summary(endpoint, clientId, apiPass), "\n") == SummaryLineList(endpoint, clientId, apiPass)
  {
    var lines := SummaryLineList(endpoint, clientId, apiPass);
    SummaryIsJoin(endpoint, clientId, apiPass);
    assert forall i :: 0 <= i < |lines| ==> '\n' !in lines[i];
    SplitJoin(lines, '\n');
  }

  /** The summary is its lines joined by newlines. */
  lemma SummaryIsJoin(endpoint: string, clientId: string, apiPass: string)
    ensures Join(SummaryLineList(endpoint, clientId, apiPass), "\n") == Summary(endpoint, clientId, apiPass)
  {
    var lines := SummaryLineList(endpoint, clientId, apiPass);
    JoinCons(lines[3], lines[4..], "\n");
    JoinCons(lines[2], lines[3..], "\n");
    JoinCons(lines[1], lines[2..], "\n");
    JoinCons(lines[0], lines[1..], "\n");
    assert lines == [lines[0]] + lines[1..];
  }

  class CheckGateway {
    var clientId: string
    var apiPass: string
    var endpoint: string
    var error: string
    /** Whether calls go to the live API rather than the sandbox. */
    var live: bool

    /** The endpoint always matches the live flag. */
    ghost predicate Valid()
      reads this
    {
      endpoint == EndpointFor(live)
    }

    /** A gateway for the given account; live unless told otherwise, no error yet. */
    constructor (clientId: string, apiPass: string, live: bool := true)
      ensures Valid()
      ensures this.clientId == clientId && this.apiPass == apiPass && this.live == live
      ensures endpoint == (if live then LIVE_ENDPOINT else TEST_ENDPOINT)
      ensures error == ""
    {
      this.clientId := clientId;
      this.apiPass := apiPass;
      this.live := live;
      this.error := "";
      this.endpoint := "";
      new;
      SetEndpoint();
    }

    method SetClientID(id: string)
      modifies this`clientId
      ensures clientId == id
    {
      clientId := id;
    }

    method GetClientID() returns (id: string)
      ensures id == clientId
    {
      id := clientId;
    }

    method SetApiPassword(pass: string)
      modifies this`apiPass
      ensures apiPass == pass
    {
      apiPass := pass;
    }

    method GetApiPassword() returns (pass: string)
      ensures pass == apiPass
    {
      pass := apiPass;
    }

    /** Re-derives the endpoint from the live flag. */
    method SetEndpoint()
      modifies this`endpoint
      ensures Valid()
      ensures endpoint == (if live then LIVE_ENDPOINT else TEST_ENDPOINT)
    {
      if live {
        endpoint := LIVE_ENDPOINT;
      } else {
        endpoint := TEST_ENDPOINT;
      }
    }

    /** The configured endpoint; on a valid gateway, the URL its mode selects. */
    method GetEndpoint() returns (url: string)
      ensures url == endpoint
      ensures Valid() ==> (url == LIVE_ENDPOINT <==> live)
    {
      url := endpoint;
    }

    method LiveMode()
      modifies this`live, this`endpoint
      ensures Valid() && live && endpoint == LIVE_ENDPOINT
    {
      live := true;
      SetEndpoint();
    }

    method TestMode()
      modifies this`live, this`endpoint
      ensures Valid() && !live && endpoint == TEST_ENDPOINT
    {
      live := false;
      SetEndpoint();
    }

    /** `__toString`. */
    method ToString() returns (s: string)
      ensures s == Summary(endpoint, clientId, apiPass)
    {
      var url := GetEndpoint();
      var id := GetClientID();
      var pass := GetApiPassword();
      s := "Gateway Type: POST\n";
      assert s == "Gateway Type: POST" + "\n";
      s := s + "Endpoint: " + url + "\n";
      s := s + "Client ID: " + id + "\n";
      s := s + "ApiPassword: " + pass + "\n";
    }

    method SetLastError(e: string)
      modifies this`error
      ensures error == e
    {
      error := e;
    }

    method GetLastError() returns (e: string)
      ensures e == error
    {
      e := error;
    }

    /** `resultToArray`: splits the response on the delimiter and stores the
        i-th token under the i-th key, for every key in order. */
    method ResultToArray(result: string, delimChar: string, keys: seq<string>) returns (fields: PhpArray)
      requires |delimChar| > 0
      ensures fields == ZipKeys(Split(result, delimChar), keys)
      ensures Distinct(keys) ==> Keys(fields) == keys
      ensures Distinct(keys) ==>
        forall i :: 0 <= i < |keys| ==> fields[i].value == TokenAt(Split(result, delimChar), i)
    {
      var split := Split(result, delimChar);
      fields := [];
      for i := 0 to |keys|
        invariant fields == ZipKeys(split, keys[..i])
      {
        assert keys[..i + 1][..i] == keys[..i];
        fields := Put(fields, keys[i], TokenAt(split, i));
      }
      assert keys[..|keys|] == keys;
      if Distinct(keys) {
        ZipKeysPositional(split, keys);
      }
    }

    /** The preparation both dispatchers start with: fill in the
        credentials the caller left out, note whether the caller asked for
        the raw string, then overwrite `x_delim_data` with the dispatcher's
        own value. */
    method Prepare(options: PhpArray, delimData: string) returns (sent: PhpArray, returnDelim: bool)
      ensures sent == SentOptions(options, clientId, apiPass, delimData)
      ensures returnDelim == WantsDelimited(options)
      ensures Get(sent, X_DELIM_CHAR) == Get(options, X_DELIM_CHAR)
    {
      sent := options;
      if !IsSet(sent, CLIENT_ID) {
        sent := Put(sent, CLIENT_ID, Str(clientId));
      }
      if !IsSet(sent, API_PASSWORD) {
        sent := Put(sent, API_PASSWORD, Str(apiPass));
      }
      assert sent == WithCredentials(options, clientId, apiPass);
      PreparedOptionsKeepDelimiter(options, clientId, apiPass, delimData);
      returnDelim := Get(sent, X_DELIM_DATA) == Str("TRUE");
      sent := Put(sent, X_DELIM_DATA, Str(delimData));
    }

    /** `request`: sends the options, with the credentials filled in and
        delimited output forced, by POST to `<endpoint>/<method>`; records
        the error and returns `false` when the transfer fails; otherwise
        returns the raw body if the caller asked for it, else the parsed
        array. */
    method Request(methodName: string, options: PhpArray, resultKeys: seq<string>,
                   post: (string, PhpArray) -> CurlOutcome) returns (r: Response)
      requires Parseable(options, post(endpoint + "/" + methodName, SentOptions(options, clientId, apiPass, POST_DELIM_DATA)))
      modifies this`error
      ensures var outcome := post(endpoint + "/" + methodName, SentOptions(options, clientId, apiPass, POST_DELIM_DATA));
        && r == PostResponse(WantsDelimited(options), Get(options, X_DELIM_CHAR), resultKeys, outcome)
        && error == if outcome.CurlFailure? then CurlErrorMessage(outcome.code, outcome.message) else old(error)
    {
      var sent, returnDelim := Prepare(options, POST_DELIM_DATA);

      var outcome := post(endpoint + "/" + methodName, sent);
      assert Parseable(options, outcome);
      match outcome
      case CurlFailure(code, message) =>
        SetLastError(CurlErrorMessage(code, message));
        r := Failed;
      case CurlSuccess(body) =>
        if returnDelim {
          r := Raw(body);
        } else {
          assert DelimiterUsable(Get(sent, X_DELIM_CHAR));
          var fields := ResultToArray(body, Get(sent, X_DELIM_CHAR).text, resultKeys);
          r := Parsed(fields);
        }
    }

    /** `requestSOAP`: sends the options, with the credentials filled in and
        delimited output switched off, as a SOAP call against
        `<endpoint>?wsdl`; records the error and returns `false` on a fault;
        otherwise returns the reply's record, or its values joined by the
        caller's delimiter if the caller asked for a delimited string. */
    method RequestSoap(methodName: string, options: PhpArray,
                       soap: (string, string, PhpArray) -> SoapOutcome) returns (r: Response)
      modifies this`error
      ensures var outcome := soap(endpoint + "?wsdl", methodName, SentOptions(options, clientId, apiPass, SOAP_DELIM_DATA));
        && r == SoapResponse(WantsDelimited(options), Get(options, X_DELIM_CHAR), outcome)
        && error == if outcome.SoapFault?
                    then SoapErrorMessage(outcome.code, outcome.message, outcome.lastRequest, outcome.lastResponse)
                    else old(error)
    {
      var sent, returnDelim := Prepare(options, SOAP_DELIM_DATA);

      var outcome := soap(endpoint + "?wsdl", methodName, sent);
      match outcome
      case SoapFault(code, message, lastRequest, lastResponse) =>
        SetLastError(SoapErrorMessage(code, message, lastRequest, lastResponse));
        r := Failed;
      case SoapReply(record) =>
        if returnDelim {
          r := Raw(Join(Texts(Values(record)), ValueText(Get(sent, X_DELIM_CHAR))));
        } else {
          r := Parsed(record);
        }
    }

    /** A named operation (`singleCheck`, `checkStatus`, ...): builds its
        call as written and hands it to the dispatcher the operation uses.
        The raw string comes back only when the caller asked for it, and
        never from `checkNote`. */
    method Invoke(op: Operation, delim: bool, delimChar: string,
                  post: (string, PhpArray) -> CurlOutcome,
                  soap: (string, string, PhpArray) -> SoapOutcome) returns (r: Response)
      requires var options := Build(op, delim, delimChar).Options();
        TransportOf(op) == Post ==>
          Parseable(options, post(endpoint + "/" + MethodName(op), SentOptions(options, clientId, apiPass, POST_DELIM_DATA)))
      modifies this`error
      ensures var call := Build(op, delim, delimChar);
        var options := call.Options();
        match call.transport
        case Post =>
          var outcome := post(endpoint + "/" + call.name, SentOptions(options, clientId, apiPass, POST_DELIM_DATA));
          && r == PostResponse(WantsDelimited(options), Get(options, X_DELIM_CHAR), call.resultKeys, outcome)
          && error == if outcome.CurlFailure? then CurlErrorMessage(outcome.code, outcome.message) else old(error)
        case Soap =>
          var outcome := soap(endpoint + "?wsdl", call.name, SentOptions(options, clientId, apiPass, SOAP_DELIM_DATA));
          && r == SoapResponse(WantsDelimited(options), Get(options, X_DELIM_CHAR), outcome)
          && error == if outcome.SoapFault?
                      then SoapErrorMessage(outcome.code, outcome.message, outcome.lastRequest, outcome.lastResponse)
                      else old(error)
      ensures r.Raw? ==> delim
      ensures op.CheckNote? ==> !r.Raw?
    {
      var call := Build(op, delim, delimChar);
      if call.transport == Post {
        r := Request(call.name, call.Options(), call.resultKeys, post);
      } else {
        r := RequestSoap(call.name, call.Options(), soap);
      }
    }
  }
}
