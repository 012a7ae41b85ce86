# Green PHP SDK: the `CheckGateway` client in Dafny

This project models `CheckGateway` from the Green Payment Processing PHP SDK
(`Green.php`). The class is a thin client for the Green eCheck API. It holds
the account credentials (`Client_ID`, `ApiPassword`) and a live/test switch
that picks one of two fixed endpoint URLs. It also keeps the text of the last
error. Each named operation (`singleCheck`, `checkStatus`, `checkNote`, the
bill-pay and invoice calls, ...) builds an array of request fields and passes
it to one of two dispatchers:

- `request` posts the fields to `<endpoint>/<method>`. It always asks the API
  for a delimited reply, then either returns that reply as is or splits it into
  an array keyed by the operation's documented result keys.
- `requestSOAP` sends the fields to `<endpoint>?wsdl` as a SOAP call. It returns
  the reply record, or the record's values joined by the caller's delimiter.

When the transfer fails, a dispatcher records an error message and returns
`false`.

Modules:

- `PhpArrays` (`php_arrays.dfy`): PHP arrays with string keys, as ordered entry
  lists.
  - `Get` is `$a[$k]`, giving null when the key is absent.
  - `IsSet` is `isset`.
  - `Put` is `$a[$k] = $v`: an existing key keeps its place, and a new key is
    appended.
  - `FromPairs` is an array literal: a repeated key keeps its first position and
    its last value.
- `Delimited` (`delimited.dfy`): `explode`/`implode` as `Split`/`Join`, and
  the `%d` rendering used in error messages. Joining the pieces of a split
  gives the string back for any non-empty delimiter. Splitting a join gives
  the pieces back only for a one-character delimiter that no piece contains.
- `Dispatch` (`dispatch.dfy`): what the dispatchers compute around the network
  call:
  - the options they send;
  - the result they return for a given transport outcome;
  - the error text;
  - the response parser's specification `ZipKeys`.
- `Operations` (`operations.dfy`): every named operation as a value of
  `Operation`. `Build` maps it to its remote method, request fields and result
  keys exactly as written. `BuildIntended` is the same table with the
  `checkNote` defect corrected (see Findings).
- `Gateway` (`gateway.dfy`): the class `CheckGateway`, covering:
  - its fields, constructor, setters and getters;
  - the mode switches and `__toString`;
  - the parser loop `ResultToArray`;
  - the two dispatchers, with the transport passed in as a function;
  - `Invoke`, which sends any named operation.

The transport is not executed. The cURL transfer is a function from URL and
fields to a `CurlOutcome` (error number and message, or a body). The SOAP call
is a function from WSDL URL, method and fields to a `SoapOutcome`. A gateway
method's contract relates its result and the new `error` field to that
function's value.

Two consequences of the parser's positional pairing are worth spelling out:

- A reply with fewer tokens than result keys is not an error. The missing keys
  hold null, as `$split[$i]` yields null past the end
  (`Dispatch.ZipKeysPositional`).
- Tokens are paired with keys by position only. For `checkStatus`, the reply
  `"0,OK,1,Verified,,1005"` puts `"1005"` under `Deleted`, the sixth key, and
  leaves `Check_ID` null (`Operations.CheckStatusReply`).

## Model

| member | source | states |
|---|---|---|
| PhpArrays.Put | Green.php:116-127 | `$a[$k] = $v`: reading `k` back gives `v`, and every other key reads as before. An existing key keeps the key order; a new key is appended at the end. Distinct keys stay distinct. |
| PhpArrays.FromPairs | Green.php:576-581 | An array literal always has distinct keys and never more entries than the literal has pairs. |
| PhpArrays.FromPairsDistinct | Green.php:486-490 | A literal whose keys are all different holds every pair as an entry, in the written order. |
| PhpArrays.FromPairsAbsent | Green.php:576-581 | A key no pair of the literal mentions is absent from the array and reads as null. |
| PhpArrays.Values | Green.php:189 | `array_values`: one value per entry, in entry order. |
| Delimited.Split | Green.php:213 | `explode` on a non-empty delimiter always yields at least one piece. A string in which the delimiter occurs nowhere yields itself as the only piece, for delimiters of any length; a single piece is always the whole string. |
| Delimited.JoinSplit | Green.php:189-213 | `implode` undoes `explode`: joining the pieces of any string split on any non-empty delimiter gives the string back. |
| Delimited.SplitJoin | Green.php:189-213 | `explode` undoes `implode`: joining at least one piece on a one-character delimiter that no piece contains, then splitting, gives the pieces back. |
| Delimited.DecimalString | Green.php:150 | `%d` yields a non-empty string that starts with `-` exactly for negative numbers and is otherwise all digits. |
| Delimited.DecimalStringValue | Green.php:150 | Reading a `%d` rendering back gives the number, so different error codes are rendered differently. |
| Dispatch.WithCredentials | Green.php:116-122 | `Client_ID` and `ApiPassword` are filled in only when the caller's value is absent or null. A supplied value is sent unchanged, both keys end up set, every other key is untouched, and distinct keys stay distinct. |
| Dispatch.SentOptions | Green.php:116-178 | A dispatcher sends the credentials as above and its own `x_delim_data`: `"TRUE"` for POST, `""` for SOAP. Every other field is sent as the caller gave it. |
| Dispatch.PreparedOptionsKeepDelimiter | Green.php:116-158 | Preparing the options changes neither the caller's `x_delim_char` (POST and SOAP) nor, before the overwrite, the caller's `x_delim_data`. So the "return delimited" decision and the delimiter the parser uses are the caller's own. |
| Dispatch.CurlErrorMessage | Green.php:150 | The cURL error text starts with `Curl failed with error #` and ends with the transport's message. |
| Dispatch.SoapErrorMessage | Green.php:195 | The SOAP error text starts with `SOAP Request failed with error #` and ends with the last SOAP response body. |
| Dispatch.ZipKeysPositional | Green.php:212-220 | With distinct keys, the parsed array has exactly the given keys, in order. Key i holds token i of the reply, keys beyond the token count hold null, and surplus tokens are dropped. |
| Dispatch.ZipKeysGet | Green.php:212-220 | With distinct keys, looking up key i in the parsed array gives token i, or null past the end of the reply. |
| Dispatch.ZipKeysLookup | Green.php:212-220 | For any key list, repeats included: a key is in the parsed array exactly when it is in the list. A repeated key holds the token at its last position. An unlisted key reads as null. |
| Dispatch.PostResponseMeaning | Green.php:142-158 | The POST result is `false` exactly when the transfer fails, whatever the delimiter. It is the body, byte for byte, exactly when the transfer succeeds and the caller asked for delimited output. Otherwise it is the array with the documented keys in order, key i holding token i. |
| Dispatch.Texts | Green.php:189 | PHP's string conversion of each value: null becomes the empty string. |
| Dispatch.SoapDelimitedReparses | Green.php:187-220 | The SOAP path's delimited string is what the POST path's parser inverts. Splitting it on the same one-character delimiter and pairing the tokens with the record's keys gives the record back, provided every value is a string (none is null) and no value contains the delimiter. A null value would come back as the empty string. This holds for the empty record too. |
| Operations.TruncateNote | Green.php:571-573 | The note sent has length min(length, 2000), is a prefix of the note, and equals the note when it has at most 2000 bytes. |
| Operations.MethodName | Green.php:252-325 | `singleCheck` calls `OneTimeDraftRTV` exactly when real-time and `OneTimeDraftBV` exactly when not. `recurringCheck` likewise calls `RecurringDraftRTV` or `RecurringDraftBV`. |
| Operations.DelimPairsReachDispatcher | Green.php:275-276 | Whatever fields come first, the two delimiter fields written last make `x_delim_data` `"TRUE"` exactly when `$delim` is true, and make `x_delim_char` the caller's delimiter. |
| Operations.Build | Green.php:252-965 | Every operation as written sends the caller's delimiter as `x_delim_char`. Every operation but `checkNote` sets `x_delim_data` to `"TRUE"` exactly when `$delim` is true, so the dispatcher returns the raw string exactly when the caller asked. `checkNote` leaves `x_delim_data` unset, so the raw string is never asked for. |
| Operations.BuildIntended | Green.php:570-584 | The corrected table ends every request with `x_delim_data` then `x_delim_char`. With it, every operation, `checkNote` included, asks for the raw string exactly when `$delim` is true and passes the caller's delimiter. |
| Operations.FieldsHaveDocumentedKeys | Green.php:252-965 | Every wrapper writes exactly the field names listed for it in `FieldKeys`, in order: the payer, address, bank, draft, image, recurrence, payee, invoice-party and amount groups its API method takes. |
| Operations.RequestKeysDistinct | Green.php:116-127 | For every operation, its field names and the two delimiter fields (for `checkNote`, the corrected literal, since the one as written repeats `x_delim_char`) are free of repeats, and none is `Client_ID` or `ApiPassword`. So the dispatcher adds the credentials as new keys and overwrites no field. |
| Operations.FieldsReachRequest | Green.php:252-965 | For every operation but `checkNote`, the array the wrapper builds holds every field and both delimiter fields once each, in written order, with the caller's values, and holds no credential. |
| Operations.FieldsInRequest | Green.php:252-965 | For every operation but `checkNote`, reading any field's name from the built array gives the caller's value. No field is named `Client_ID`, `ApiPassword` or `x_delim_data`, and both credentials are absent. |
| Operations.FieldsSent | Green.php:116-178 | For every operation, `checkNote` and the three SOAP operations included, the options either dispatcher sends (whatever `x_delim_data` it sets) carry every field the wrapper writes with the caller's value, and the gateway's configured `Client_ID` and `ApiPassword`. |
| Operations.BuildIsIntendedExceptCheckNote | Green.php:252-965 | The table as written and the corrected one agree on every operation except `checkNote`. |
| Operations.CheckNoteDropsDelimFlag | Green.php:576-581 | `checkNote` as written sends only `Check_ID`, `Note` and `x_delim_char`, with `x_delim_char` holding the caller's delimiter. `x_delim_data` is absent, so the dispatcher never returns the raw string. |
| Operations.CheckNoteIntendedHonoursDelim | Green.php:576-581 | With `$delim` true, the corrected `checkNote` asks for the raw string and the written one does not. |
| Operations.ResultKeysDistinct | Green.php:485-528 | Every operation's key list is free of repeats. It has 13 keys for `checkStatus`, 2 for `cancelCheck` and `checkNote`, 4 for refunds and bill-pay, 6 for drafts, verification and invoices, and none for the SOAP calls. |
| Operations.ParsedResultHasDocumentedKeys | Green.php:142-220 | For every POST operation as written, with `$delim` false and a non-empty delimiter, a successful reply becomes the array with exactly the documented keys, in order, key i holding token i. |
| Operations.DelimitedResultIsBody | Green.php:155-156 | For every POST operation as written except `checkNote`, with `$delim` true, a successful reply is returned as is. |
| Operations.CheckNoteResultIsParsed | Green.php:570-584 | `checkNote` as written parses a successful reply into `Result` and `ResultDescription` whatever `$delim` is, so it never returns the raw string. |
| Operations.CheckStatusRequest | Green.php:485-490 | A non-delimited `checkStatus` sends the caller's credentials, `Check_ID`, `x_delim_data = "TRUE"` and the caller's delimiter, and the dispatcher will parse the reply. |
| Operations.StatusReplyParsed | Green.php:485-505 | Any successful, non-delimited status reply is parsed into the thirteen status keys, in order. |
| Operations.ShortStatusReply | Green.php:491-504 | A six-token status reply fills `Result` through `Deleted` and leaves the other seven keys, `Check_ID` among them, null. |
| Operations.StatusReplyTokens | Green.php:213 | The reply `0,OK,1,Verified,,1005` splits on `,` into its six tokens, the fifth one empty. |
| Operations.CheckStatusReply | Green.php:485-505 | That reply parses to `Result = "0"`, `VerifyResultDescription = "Verified"`, `VerifyOverridden = ""` and `Deleted = "1005"`, with `Check_ID` null. |
| Gateway.EndpointFor | Green.php:25-28 | The endpoint table gives the live URL exactly for live mode and the sandbox URL exactly for test mode. |
| Gateway.SummaryLines | Green.php:78-85 | When no configured value contains a newline, the summary is exactly four newline-terminated lines, in their fixed order. |
| Gateway.SummaryIsJoin | Green.php:78-85 | The summary is its four lines joined and ended by newlines. |
| Gateway.CheckGateway.constructor | Green.php:33-38 | A new gateway holds the given credentials, is live unless told otherwise, and its endpoint matches its mode. |
| Gateway.CheckGateway.SetClientID | Green.php:40-42 | Sets the client id and changes no other field. |
| Gateway.CheckGateway.GetClientID | Green.php:44-46 | Returns the client id last set. |
| Gateway.CheckGateway.SetApiPassword | Green.php:48-50 | Sets the API password and changes no other field. |
| Gateway.CheckGateway.GetApiPassword | Green.php:52-54 | Returns the password last set. |
| Gateway.CheckGateway.SetEndpoint | Green.php:56-62 | Makes the endpoint the URL of the current mode and changes no other field. |
| Gateway.CheckGateway.GetEndpoint | Green.php:64-66 | Returns the endpoint. On a consistent gateway, this is the live URL exactly when live. |
| Gateway.CheckGateway.LiveMode | Green.php:68-71 | Afterwards the gateway is live with the live URL. Only the mode and endpoint change, so repeating the call changes nothing. |
| Gateway.CheckGateway.TestMode | Green.php:73-76 | Afterwards the gateway is in test mode with the sandbox URL. Only the mode and endpoint change, so repeating the call changes nothing. |
| Gateway.CheckGateway.ToString | Green.php:78-85 | `__toString` returns the four-line summary of the current endpoint and credentials. |
| Gateway.CheckGateway.SetLastError | Green.php:95-97 | Records the error text and changes no other field. |
| Gateway.CheckGateway.GetLastError | Green.php:99-101 | Returns the error text last recorded. |
| Gateway.CheckGateway.ResultToArray | Green.php:212-220 | The `foreach` loop builds exactly `ZipKeys` of the split reply. With distinct keys, the array has exactly those keys in order, key i holding token i or null. |
| Gateway.CheckGateway.Prepare | Green.php:116-127 | Both dispatchers' preparation: the options sent are `SentOptions` of the caller's options. The "return delimited" flag is read from the caller's `x_delim_data` before the overwrite. The delimiter is the caller's. |
| Gateway.CheckGateway.Request | Green.php:115-164 | Posts the prepared options to `<endpoint>/<method>`. The result is the dispatcher's result for the transfer outcome. `error` becomes the cURL error text on failure and is untouched on success. A failed transfer needs no usable delimiter. |
| Gateway.CheckGateway.RequestSoap | Green.php:166-198 | Calls `<method>` at `<endpoint>?wsdl` with the SOAP options. The result is the reply record, or its values joined by the caller's delimiter. `error` becomes the SOAP error text on a fault and is untouched otherwise. |
| Gateway.CheckGateway.Invoke | Green.php:252-965 | A named operation sends its request as written through its own dispatcher. The result is that dispatcher's result for the transport's outcome, and `error` is set as that dispatcher sets it. The raw string comes back only when `$delim` is true, and never from `checkNote`. |

## Left out

- The cURL transfer (`curl_init`, `curl_setopt`, `curl_exec`, the connect timeout, Green.php:130-148) is not modelled. Its outcome is an input; a failed `curl_init` is a failure outcome with code 0.
- `http_build_query` (Green.php:140) is not modelled: the fields are handed to the transport as an array, not URL-encoded.
- `SoapClient` construction (Green.php:180) is not modelled. It sits outside the `try`, so a WSDL failure there propagates as an exception.
- `__soapCall` and the object-to-array casts with `reset` (Green.php:183-185) are not modelled. The reply record is an input.
- `__getLastRequest` and `__getLastResponse` are not modelled. They are fields of the SOAP fault outcome.
- `toString($html)` with `nl2br` (Green.php:87-93) is not modelled; `__toString` is.
- The parse-failure `catch` (Green.php:160-162) is not modelled. With a non-empty delimiter, nothing in `resultToArray` throws: an index past the end of the reply yields null.
- Gateway.CheckGateway.Request: requires a usable delimiter only when the transfer succeeds and the caller did not ask for the raw string, because `explode` with an empty or null delimiter raises a `ValueError`, which the `catch (\Exception)` does not catch. That crash is not modelled. `ResultToArray` and `Invoke` carry the same requirement.
- The wrappers' default arguments (`$check_number = ''`, `$delim = FALSE`, `$delim_char = ","`, `$realtime = TRUE`, Green.php:252, 321, 485 and the other wrappers) are not modelled: every argument of an `Operation` and of `Build` is explicit. A call that relies on the defaults is the call with those values.
- PHP type juggling of non-string arguments is not modelled: every field value is a string or null, as the doc comments state, and SOAP record values likewise.
- Dispatch.CurlErrorMessage: states the fixed prefix and the message suffix only. The rendered code between them is not pinned down by this contract. `Delimited.DecimalStringValue` proves the rendering itself.
- Dispatch.SoapErrorMessage: states the fixed prefix and the last-response suffix only. The code, message and last-request pieces in between are not separated out.
- PhpArrays.FromPairs: its own contract gives only distinct keys and a size bound. Its exact contents are stated by `FromPairsDistinct` for literals without repeated keys and by `CheckNoteDropsDelimFlag` for the one literal with a repeat.
- Delimited.Split: states that a string lacking the delimiter is its own only piece, but not that no piece contains the delimiter.
- The repository's demo scripts (`createCheck.php`, `checkStatus.php`, ...) are not part of this model. They do file I/O, sleep and live network calls, and have no logic of their own.

## Findings

| source | as written | input that shows it | evidently intended | confidence | as-written member | corrected member |
|---|---|---|---|---|---|---|
| Green.php:578-579 | `checkNote` stores its delimiter flag under `x_delim_char`, and the next entry of the same literal overwrites it. `x_delim_data` is never sent, so the caller's `$delim` is ignored. | `checkNote("1", "note", TRUE, ",")` returns the parsed array instead of the raw string. | The flag goes under `x_delim_data`, as in every other wrapper. The raw string is then returned exactly when `$delim` is true. | high; not executed | Operations.CheckNoteDropsDelimFlag | Operations.BuildIntended |
