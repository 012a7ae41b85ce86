/**
  What the gateway's two dispatchers compute, apart from the network call
  itself: the options they send (credentials filled in, delimited mode
  forced), how the transport's outcome becomes the caller's result, the
  error text recorded on failure, and the delimited-response parser's
  specification. The transport is not modelled: its outcome is an input.
 */
module Dispatch {
  import opened PhpArrays
  import opened Delimited

  const CLIENT_ID := "Client_ID"
  const API_PASSWORD := "ApiPassword"
  const X_DELIM_DATA := "x_delim_data"
  const X_DELIM_CHAR := "x_delim_char"

  /** What the cURL transfer produced: its error number and message, or the
      response body. A failed `curl_init` is a failure with code 0. */
  datatype CurlOutcome = CurlFailure(code: int, message: string) | CurlSuccess(body: string)

  /** What the SOAP call produced: a fault with the exchanged request and
      response bodies, or the first nested record of the reply, flattened. */
  datatype SoapOutcome =
    | SoapFault(code: int, message: string, lastRequest: string, lastResponse: string)
    | SoapReply(record: PhpArray)

  /** A dispatcher's result: `false`, a delimited string, or an associative array. */
  datatype Response = Failed | Raw(text: string) | Parsed(fields: PhpArray)

  /** Fills in the account credentials the caller left out (absent or null);
      values the caller supplied are kept. */
  function WithCredentials(options: PhpArray, clientId: string, apiPass: string): (r: PhpArray)
    ensures Get(r, CLIENT_ID) == if IsSet(options, CLIENT_ID) then Get(options, CLIENT_ID) else Str(clientId)
    ensures Get(r, API_PASSWORD) == if IsSet(options, API_PASSWORD) then Get(options, API_PASSWORD) else Str(apiPass)
    ensures IsSet(r, CLIENT_ID) && IsSet(r, API_PASSWORD)
    ensures forall k :: k != CLIENT_ID && k != API_PASSWORD ==> Get(r, k) == Get(options, k)
    ensures WellFormed(options) ==> WellFormed(r)
  {
    var withId := if IsSet(options, CLIENT_ID) then options else Put(options, CLIENT_ID, Str(clientId));
    if IsSet(withId, API_PASSWORD) then withId else Put(withId, API_PASSWORD, Str(apiPass))
  }

  /** The caller asked for the raw delimited string: `x_delim_data` is
      exactly the string "TRUE". */
  predicate WantsDelimited(options: PhpArray)
  {
    Get(options, X_DELIM_DATA) == Str("TRUE")
  }

  /** The value each dispatcher forces into `x_delim_data`: POST always asks
      the API for a delimited reply, SOAP never does, because the SOAP reply
      is structured. */
  const POST_DELIM_DATA := "TRUE"
  const SOAP_DELIM_DATA := ""

  /** The options a dispatcher sends: credentials filled in and
      `x_delim_data` overwritten with the dispatcher's own value. */
  function SentOptions(options: PhpArray, clientId: string, apiPass: string, delimData: string): (sent: PhpArray)
    ensures Get(sent, X_DELIM_DATA) == Str(delimData)
    ensures Get(sent, CLIENT_ID) == if IsSet(options, CLIENT_ID) then Get(options, CLIENT_ID) else Str(clientId)
    ensures Get(sent, API_PASSWORD) == if IsSet(options, API_PASSWORD) then Get(options, API_PASSWORD) else Str(apiPass)
    ensures forall k :: k !in {CLIENT_ID, API_PASSWORD, X_DELIM_DATA} ==> Get(sent, k) == Get(options, k)
    ensures WellFormed(options) ==> WellFormed(sent)
  {
    Put(WithCredentials(options, clientId, apiPass), X_DELIM_DATA, Str(delimData))
  }

  /** Both dispatchers read the caller's delimiter and delimited-output wish
      unchanged from the options they send. */
  lemma PreparedOptionsKeepDelimiter(options: PhpArray, clientId: string, apiPass: string, delimData: string)
    ensures Get(SentOptions(options, clientId, apiPass, delimData), X_DELIM_CHAR) == Get(options, X_DELIM_CHAR)
    ensures Get(WithCredentials(options, clientId, apiPass), X_DELIM_DATA) == Get(options, X_DELIM_DATA)
  {
    assert X_DELIM_CHAR !in {CLIENT_ID, API_PASSWORD, X_DELIM_DATA};
  }

  /** `sprintf('Curl failed with error #%d: %s', code, message)`. */
  function CurlErrorMessage(code: int, message: string): (e: string)
    ensures |e| >= 27 + |message|
    ensures e[..24] == "Curl failed with error #"
    ensures e[|e| - |message|..] == message
  {
    "Curl failed with error #" + DecimalString(code) + ": " + message
  }

  /** `sprintf('SOAP Request failed with error #%d: %s <br/> %s <br/> %s', ...)`
      with the last request and response bodies of the SOAP exchange. */
  function SoapErrorMessage(code: int, message: string, lastRequest: string, lastResponse: string): (e: string)
    ensures |e| >= 47 + |message| + |lastRequest| + |lastResponse|
    ensures e[..32] == "SOAP Request failed with error #"
    ensures e[|e| - |lastResponse|..] == lastResponse
  {
    "SOAP Request failed with error #" + DecimalString(code) + ": " + message
      + " <br/> " + lastRequest + " <br/> " + lastResponse
  }

  /** `$split[$i]`: the i-th token, or null past the end. */
  function TokenAt(tokens: seq<string>, i: nat): Value
  {
    if i < |tokens| then Str(tokens[i]) else Null
  }

  /** The array `resultToArray` builds: for each position i of the key list,
      in order, `$resultArray[keys[i]] = $split[i]`. */
  function ZipKeys(tokens: seq<string>, keys: seq<string>): PhpArray
    decreases |keys|
  {
    if keys == [] then []
    else Put(ZipKeys(tokens, keys[..|keys| - 1]), keys[|keys| - 1], TokenAt(tokens, |keys| - 1))
  }

  /** With distinct keys, entry i of the parsed array is key i holding the
      i-th token (null when the response was short); surplus tokens are dropped. */
  lemma {:induction false} ZipKeysPositional(tokens: seq<string>, keys: seq<string>)
    requires Distinct(keys)
    ensures Keys(ZipKeys(tokens, keys)) == keys
    ensures forall i :: 0 <= i < |keys| ==> ZipKeys(tokens, keys)[i] == Entry(keys[i], TokenAt(tokens, i))
  {
    if keys != [] {
      var front := keys[..|keys| - 1];
      ZipKeysPositional(tokens, front);
      assert keys[|keys| - 1] !in front;
    }
  }

  /** With distinct keys, key i of the parsed array holds the i-th token. */
  lemma ZipKeysGet(tokens: seq<string>, keys: seq<string>, i: nat)
    requires Distinct(keys) && i < |keys|
    ensures Get(ZipKeys(tokens, keys), keys[i]) == TokenAt(tokens, i)
  {
    ZipKeysPositional(tokens, keys);
    GetAt(ZipKeys(tokens, keys), i);
  }

  /** The last position at which `k` occurs in `keys`. */
  function LastIndex(keys: seq<string>, k: string): (i: nat)
    requires k in keys
    ensures i < |keys| && keys[i] == k
    ensures forall j :: i < j < |keys| ==> keys[j] != k
  {
    if keys[|keys| - 1] == k then |keys| - 1
    else
      assert keys == keys[..|keys| - 1] + [keys[|keys| - 1]];
      LastIndex(keys[..|keys| - 1], k)
  }

  /** For any key list, repeated keys included: the parsed array holds
      exactly the listed keys, and a repeated key holds the token at its
      last position. */
  lemma {:induction false} ZipKeysLookup(tokens: seq<string>, keys: seq<string>, k: string)
    ensures k in Keys(ZipKeys(tokens, keys)) <==> k in keys
    ensures k in keys ==> Get(ZipKeys(tokens, keys), k) == TokenAt(tokens, LastIndex(keys, k))
    ensures k !in keys ==> Get(ZipKeys(tokens, keys), k) == Null
  {
    if keys != [] {
      var front := keys[..|keys| - 1];
      var last := keys[|keys| - 1];
      var z := ZipKeys(tokens, front);
      ZipKeysLookup(tokens, front, k);
      assert keys == front + [last];
      if last in Keys(z) {
        assert Keys(ZipKeys(tokens, keys)) == Keys(z);
      } else {
        assert Keys(ZipKeys(tokens, keys)) == Keys(z) + [last];
      }
      if k !in keys {
        GetAbsent(ZipKeys(tokens, keys), k);
      }
    }
  }

  /** The delimiter can be used to split: a non-empty string. */
  predicate DelimiterUsable(delimiter: Value)
  {
    delimiter.Str? && |delimiter.text| > 0
  }

  /** The POST dispatcher will not reach `explode` with an unusable
      delimiter after the given transfer outcome: it parses only a body it
      received, and only when the caller did not ask for the raw string. */
  predicate Parseable(options: PhpArray, outcome: CurlOutcome)
  {
    outcome.CurlSuccess? && !WantsDelimited(options) ==> DelimiterUsable(Get(options, X_DELIM_CHAR))
  }

  /** The POST dispatcher's result for a transfer outcome. */
  function PostResponse(wantsDelim: bool, delimiter: Value, keys: seq<string>, outcome: CurlOutcome): Response
    requires outcome.CurlSuccess? && !wantsDelim ==> DelimiterUsable(delimiter)
  {
    match outcome
    case CurlFailure(_, _) => Failed
    case CurlSuccess(body) =>
      if wantsDelim then Raw(body) else Parsed(ZipKeys(Split(body, delimiter.text), keys))
  }

  /** `r` is a parsed array whose entries are the keys in order, key i
      holding token i. */
  predicate ParsedAs(r: Response, keys: seq<string>, tokens: seq<string>)
  {
    && r.Parsed?
    && Keys(r.fields) == keys
    && forall i :: 0 <= i < |keys| ==> r.fields[i].value == TokenAt(tokens, i)
  }

  /** The POST dispatcher fails exactly when the transfer fails; otherwise it
      hands back the body untouched when the caller asked for delimited
      output, and else the array with exactly the given keys, in order. */
  lemma PostResponseMeaning(wantsDelim: bool, delimiter: Value, keys: seq<string>, outcome: CurlOutcome)
    requires outcome.CurlSuccess? && !wantsDelim ==> DelimiterUsable(delimiter)
    ensures PostResponse(wantsDelim, delimiter, keys, outcome).Failed? <==> outcome.CurlFailure?
    ensures PostResponse(wantsDelim, delimiter, keys, outcome).Raw? <==> outcome.CurlSuccess? && wantsDelim
    ensures outcome.CurlSuccess? && wantsDelim ==> PostResponse(wantsDelim, delimiter, keys, outcome) == Raw(outcome.body)
    ensures outcome.CurlSuccess? && !wantsDelim && Distinct(keys) ==>
      ParsedAs(PostResponse(wantsDelim, delimiter, keys, outcome), keys, Split(outcome.body, delimiter.text))
  {
    if outcome.CurlSuccess? && !wantsDelim && Distinct(keys) {
      ZipKeysPositional(Split(outcome.body, delimiter.text), keys);
    }
  }

  /** PHP's string conversion of a value: null becomes the empty string. */
  function ValueText(v: Value): string
  {
    if v.Null? then "" else v.text
  }

  function Texts(vs: seq<Value>): (ts: seq<string>)
    ensures |ts| == |vs|
    ensures forall i :: 0 <= i < |vs| ==> ts[i] == ValueText(vs[i])
  {
    seq(|vs|, i requires 0 <= i < |vs| => ValueText(vs[i]))
  }

  /** The SOAP dispatcher's result for a call outcome: the record's values
      joined by the caller's delimiter, or the record itself. */
  function SoapResponse(wantsDelim: bool, delimiter: Value, outcome: SoapOutcome): Response
  {
    match outcome
    case SoapFault(_, _, _, _) => Failed
    case SoapReply(record) =>
      if wantsDelim then Raw(Join(Texts(Values(record)), ValueText(delimiter))) else Parsed(record)
  }

  /** The SOAP path's delimited string is what the POST path's parser
      inverts: splitting it on the same one-character delimiter and pairing
      the tokens with the record's keys gives the record back, provided no
      value contains the delimiter. An empty record joins to the empty
      string, whose one empty piece is paired with no key. */
  lemma SoapDelimitedReparses(record: PhpArray, c: char)
    requires WellFormed(record)
    requires forall i :: 0 <= i < |record| ==> record[i].value.Str? && c !in record[i].value.text
    ensures SoapResponse(true, Str([c]), SoapReply(record)).Raw?
    ensures ZipKeys(Split(SoapResponse(true, Str([c]), SoapReply(record)).text, [c]), Keys(record)) == record
  {
    if record != [] {
      var texts := Texts(Values(record));
      SplitJoin(texts, c);
      ZipKeysPositional(texts, Keys(record));
    }
  }
}
