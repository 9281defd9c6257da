# gocaruna login flow in Dafny

This project models the session handling of the Caruna API client in
`api.go`:

- **`CarunaAPIClient.Login`** negotiates a session with Caruna's identity provider. It makes eight HTTP round trips:
  1. POST the authorization request.
  2. Follow `loginRedirectUrl`.
  3. Follow the meta refresh to the login page.
  4. Post the credentials to the Wicket AJAX endpoint cut from the form's action.
  5. Follow the CDATA redirect in the AJAX reply.
  6. Follow the consent page's meta refresh.
  7. Post the consent form.
  8. Post the landing URL's query to the token endpoint.

  The decoded token reply is stored as the client's login.
- **`Logout`** asks the logout endpoint and, when the GET gets a response, clears the stored login.
- **`LoginInfo`** returns the stored login.

The network is a script of replies. The k-th request the flow sends gets the k-th reply. A script that runs out behaves like a server that stops answering.

A reply is either a transport failure or a response. A response body is given in the shape its reader produces:

- a JSON string map;
- a decoded `LoginInfo`;
- a goquery document, modelled as its elements in document order;
- raw text;
- unreadable, which stands for a reader or decoder error.

The Go code panics when a slice or index is out of range. There are four such places:

- `postURL[6:]`
- `action[1:][:17]`
- `matches[0][1]`
- `metaContent[6:]`

Each panic is a distinct `LoginError.Panic` outcome, so no precondition is placed on the replies.

The model has these modules:

- `Html` models `Find(selector)`, `Attr`, and the rule that `Find(sel).Attr(name)` reads only the first match.
- `UrlValues` models `url.Values` with `Set` and `Add`.
- `Redirects` holds the three target extractors: the meta refresh, the behaviour endpoint, and the leftmost lazy match of the pattern `CDATA\[.(.*?)\]\]`.
- `Forms` holds the two hidden-input harvests. They are loops proved against `SetAll` and `AddAll`. It also builds the login and consent forms.
- `CarunaApi` holds the flow and the client class.
- `LoginProperties` holds what the flow guarantees for every script.

The flow's specification is `Negotiate`. It drives a `Stage` datatype through `Advance`, one stage per request. `CarunaAPIClient.Login` runs the source's straight-line body in the methods `SignIn` and `Consent`, and is proved equal to `Negotiate`.

## Model

| member | source | states |
|---|---|---|
| `Redirects.MetaTarget` | api.go:187-188 | The target exists exactly when the meta content has at least 6 characters, since `[6:]` panics otherwise. The target is the content minus its first 6 characters. |
| `Redirects.BehaviourEndpoint` | api.go:199-200 | The endpoint exists exactly when the action has at least 18 characters. It is the action's characters 1..18 followed by the listener suffix, so its length is always 17 plus the suffix length. |
| `Redirects.CdataRedirect` | api.go:235-237 | There is no redirect exactly when the pattern matches nowhere, which is when `matches[0]` panics. Otherwise the redirect is the capture of a lazy match with no match starting further left. |
| `Redirects.CdataRedirectIsLeftmostLazy` | api.go:235-237 | Any lazy match with no match to its left is the one reported. The extraction is determined by the regular expression alone. |
| `Redirects.CdataRedirectOfWrappedPath` | api.go:235-237 | A body of `CDATA[`, one non-newline character, a path free of `]` and newlines, then `]]`, redirects to that path whatever follows. |
| `Redirects.CdataRedirectExample` | api.go:235-237 | A typical AJAX reply yields the URL inside its CDATA block. |
| `Redirects.MetaTargetExample` | api.go:187-188 | A `0;url=` refresh yields the path after the prefix. |
| `Redirects.BehaviourEndpointExample` | api.go:199-200 | A concrete action gives the expected endpoint. 18 characters is the shortest action that does not panic. |
| `Html.Find` | api.go:202 | The selection holds exactly the document's matching elements and is never longer than the document. |
| `Html.FindAppend` | api.go:202-209 | The selection keeps document order: the matches of a document's first part come before those of the rest. |
| `Html.FindOne` | api.go:260-265 | A single element is selected once when it matches and otherwise not at all. With `FindAppend`, each matching element is kept as often as it occurs. |
| `Html.FirstAttr` | api.go:187 | `doc.Find(sel).Attr(name)`, also used at api.go:199, 212 and 247: the named attribute of the first matching element, or `""` when no element matches or the first lacks the attribute. |
| `Html.AttrOrEmpty` | api.go:203-207 | An absent attribute reads as `""`. A present one reads as its value. |
| `Html.FirstAttrIsFirstMatch` | api.go:187 | `Find(sel).Attr(name)` is decided by the first matching element and by nothing later in the document. |
| `Html.FirstAttrOfNoMatch` | api.go:212 | With no matching element the attribute reads as `""`. This gives the empty submit name and the empty meta content that then panics. |
| `UrlValues.Set` | api.go:208 | After `Set`, the key holds exactly one value. The other keys are unchanged and no other key is added. |
| `UrlValues.Add` | api.go:264 | After `Add`, the value is appended after those already stored under the key. The other keys are unchanged. |
| `Forms.HarvestBySet` | api.go:201-209 | The `Each` loop calling `Set` for every hidden input produces `SetAll` of the inputs. |
| `Forms.SetAllKeys` | api.go:201-209 | The login harvest has one key per distinct hidden-input name, and no other keys. |
| `Forms.SetAllLastWins` | api.go:201-209 | A name maps to the single value of the last input that carries it. A later input overwrites an earlier one. |
| `Forms.HarvestByAdd` | api.go:260-265 | The `Each` loop calling `Add` for every hidden input produces `AddAll` of the inputs. |
| `Forms.NamedAppend` | api.go:261-265 | Filtering a concatenation of inputs by name gives the two filtered parts, in order. |
| `Forms.AddAllCollects` | api.go:260-265 | Each name maps to the values of all inputs carrying it, in document order. A name is a key exactly when some input carries it. |
| `Forms.SetKeepsLastOfAdd` | api.go:201-209 | Both harvests see the same names. For each name, the Set harvest keeps only the last value the Add harvest collects. |
| `Forms.LoginFormFields` | api.go:201-213 | The login form holds the harvested names plus the username, password and submit fields. The submit name maps to "1" and wins any clash. The username and password are present unless the submit name shadows them. Every other harvested field is sent as harvested. |
| `Forms.BuildLoginForm` | api.go:201-213 | The statement-by-statement build (harvest, then set the username, the password and the submit field) yields the login form. |
| `Forms.LoginFormData` | api.go:201-213 | The login form: the Set harvest of the hidden inputs, then the username, the password and the submit input's name set to "1", in that order. |
| `Forms.ConsentFormFields` | api.go:259-265 | The consent form carries exactly the hidden-input names, each with all its values in document order. No credential or submit field is added. |
| `Forms.ConsentFormData` | api.go:259-265 | The consent form: the Add harvest of the hidden inputs, with nothing added. |
| `CarunaApi.StageIndex` | api.go:160-290 | There are eight stages, and a stage's index is the index of the request it sends. |
| `CarunaApi.RedirectUrlOf` | api.go:176 | `loginResp["loginRedirectUrl"]`: the key's value, or `""` when the decoded map lacks it, as a Go map read does. |
| `CarunaApi.Advance` | api.go:160-290 | A stage either ends the run or hands over to the very next stage. |
| `CarunaApi.AdvanceVerdict` | api.go:165-285 | A stage goes on exactly when its reply arrived, has the shape its reader needs, and is long enough to slice. The token stage then ends in the reply's login. Otherwise the stage ends with that reply's transport, decode or panic error. |
| `CarunaApi.RunFrom` | api.go:160-290 | From any stage the run sends that stage's request first and at most one request per remaining stage. |
| `CarunaApi.Negotiate` | api.go:160-290 | The whole login: the run from the authorization stage with no request sent yet. Its requests and outcome are what `Login` is proved to produce. |
| `CarunaApi.SignIn` | api.go:160-237 | The source's straight-line body, from the authorization POST to the CDATA redirect, sends exactly the requests of `Negotiate` and ends with its outcome. |
| `CarunaApi.Consent` | api.go:237-285 | The straight-line consent half, from the CDATA target to the token reply, is the rest of the run from that stage. |
| `CarunaApi.CarunaAPIClient.constructor` | api.go:32-43 | A new client has no session. |
| `CarunaApi.CarunaAPIClient.LoginInfo` | api.go:45-47 | Returns the stored session. |
| `CarunaApi.CarunaAPIClient.Logout` | api.go:151-158 | One GET to the logout URL. On a transport failure the error is returned and the session is kept. Otherwise the session is reset to the zero `LoginInfo`. |
| `CarunaApi.CarunaAPIClient.Login` | api.go:160-290 | Sends exactly the negotiation's requests. The session is stored only when every step succeeded. Any error is returned with the stored login unchanged. |
| `LoginProperties.AcceptedBetweenEach` | api.go:160-290 | "Every reply in a range is accepted", stated recursively, is the same as stating it for each index. |
| `LoginProperties.RunFromSucceedsIff` | api.go:160-290 | From any stage, the rest of the run ends in a session exactly when every remaining reply is accepted. The session is then the token reply's. |
| `LoginProperties.RunFromFailsAt` | api.go:160-290 | From any stage, the first rejected reply decides the error. The run stops right after the request that reply answers. |
| `LoginProperties.LoginSucceedsIffEveryReplyAccepted` | api.go:160-290 | A login succeeds if and only if all eight replies are accepted. It then sent eight requests and stores the token reply's login. |
| `LoginProperties.LoginFailsAtFirstRejectedReply` | api.go:160-290 | When reply j is the first one rejected, exactly j+1 requests went out and the error is reply j's transport, decode or panic error. |
| `LoginProperties.FirstRejectedReply` | api.go:160-290 | A login that does not succeed has a first rejected reply among the eight. |
| `LoginProperties.RequestsWaitForReplies` | api.go:160-290 | A login sends between 1 and 8 requests. Each request is sent only after the previous reply was accepted. An error always concerns the reply to the last request. |
| `LoginProperties.CredentialsDoNotDecideOutcome` | api.go:201-213 | For the same script of replies, the credentials only fill the login form. They decide neither the outcome nor how many requests are sent. A real server answers wrong credentials with a different reply, so this is about the client's own logic. |
| `LoginProperties.RunFromReadsOnlyItsReplies` | api.go:160-290 | The rest of a run reads only the replies to the requests it sends. |
| `LoginProperties.LoginReadsOnlyAnsweredReplies` | api.go:160-290 | Two scripts that agree on the replies a login consumed give the same requests and outcome. |
| `LoginProperties.AcceptedBetweenSplit` | api.go:160-290 | An accepted range splits at any point into two accepted ranges, and back. |
| `LoginProperties.SignInRequests` | api.go:165-237 | The first four requests: the authorization POST, then `loginRedirectUrl`, then `AuthenticationURL` plus the meta target, then the credentials posted to `PortalURL` plus the behaviour endpoint. The run continues at `PortalURL` plus the CDATA capture. |
| `LoginProperties.ConsentRequests` | api.go:237-273 | The last four requests: the CDATA target, the second meta target verbatim, the consent form posted to the form's action verbatim, and the landing URL's query posted to the token URL. |
| `LoginProperties.SuccessfulLoginRequests` | api.go:165-273 | A successful login's eight requests, each target built by plain concatenation from the reply before it. |

## Left out

- HTTP transport, the cookie jar, redirects inside `http.Client`, and the failure of `cookiejar.New` in `NewCarunaClient` (api.go:32-43). They are replaced by the script of replies. The reply to the consent POST carries the query parameters of its final URL (`finalQuery`). The URL itself is not kept.
- The request headers (api.go:218-224) are constant assignments and are not modelled. So are the JSON and form encodings of request bodies (`json.Marshal`, `Values.Encode`): bodies are kept as maps.
- `http.NewRequest` failing at api.go:214 is not modelled. The same holds for the requests that `Get` and `PostForm` build themselves. They fail before any traffic on a URL with no scheme, such as the empty `loginRedirectUrl` (api.go:176-177) or a relative second meta target or consent form action used verbatim (api.go:249, 266). The model leaves the outcome of those requests to the script of replies. `url.Parse` failing at api.go:272 is not modelled either. It re-parses the `String()` of a URL the client already parsed, which does not fail in practice. If it did fail, `parsedURL` would be nil and `parsedURL.Query()` at api.go:273 would panic.
- The REST accessors `CustomerInfo`, `ConsumedHours` and `MeteringPoints` (api.go:49-149) are out of scope. They are request-then-decode plumbing that only reads the stored token.
- The internals of goquery HTML parsing, `encoding/json`, and Go's `regexp` engine. The model states their observable contracts: first-match `Attr`, decoded payloads, and the leftmost lazy match of the pattern. The capture is recomputed from the pattern's definition, not by a regexp engine.
- `types.go` is not part of this model.
  - `ParsedURL` is kept as its text.
  - `ExpiresAt` is an unbounded integer.
  - `VisitorParams` is a string.
  - The float-valued consumption types are out of scope.
- Go strings are byte sequences; here they are sequences of characters. The CDATA pattern's `.` is taken to exclude only `\n`, as Go's does, and UTF-8 decoding is not modelled.
- `defer resp.Body.Close()` is not modelled, because closing bodies has no observable effect on the flow.
- A Go panic unwinds the caller instead of returning an error. The model returns a distinct `Panic` outcome. Like an error, it leaves the stored login unchanged.

## Notes on behaviour

- The code clears the stored login on logout only when the logout GET succeeds. A transport error leaves the session in place. This is narrower than describing logout as "clears the session", and the model follows the code.
- When two hidden inputs of the login page share a name, the last one wins (`SetAllLastWins`). So the login form depends on the order of the inputs. The consent form keeps all values in document order (`AddAllCollects`).
- The code checks no HTTP status code anywhere in the flow. A reply that arrives is judged only by whether its body reads or decodes. So "a non-2xx reply fails" does not hold of the code. Neither does "the stored token is non-empty": a token reply that decodes into a `LoginInfo` with an empty token, such as a JSON error object, is stored as a successful login (api.go:283-287). The model follows the code. `RunFromSucceedsIff` asks nothing of the token reply beyond its decoding.
