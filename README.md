# IDology service request assembly, modelled in Dafny

This project models the request-assembly core of `IDologyService`, a thin C#
client for the IDology identity-verification API. The service:

- loads the vendor username and password from configuration when it is
  constructed, failing if either is missing or empty, and keeps the base
  parameters `[username, password, "JSON"]` for its whole lifetime;
- offers nine operation methods (ExpectID, ExpectIDEmail, EmailStandalone,
  ExpectIDGeoTrace, AlertList, ExpectIdPA, ExpectIdScanOnboard,
  ExpectIdScanVerify, ExpectIdAlertList), each binding a fixed endpoint path
  and an ordered list of required field names;
- builds each request's positional parameter array as the base parameters
  followed by the caller's arguments, and hands endpoint, field names and
  parameters to an HTTP request collaborator;
- wraps any failure while reading or decoding the response as
  `Exception("Error: " + message)`.

Modules:

- `Wrappers` (`wrappers.dfy`): `Option` and `Result`.
- `Operations` (`operations.dfy`): the `Operation` datatype (one constructor
  per operation method), `Spec` (the endpoint/field table), `Canonical` (the
  two deliberate aliases as an independent reference definition) and
  `RequestFor` (the transport input of one operation: its table entry and
  the given parameters; the reference definition that `Service.Call`,
  `AliasesHandSameCall` and `ValidRequestLayout` are stated against).
- `IDologyService` (`service.dfy`): configuration, `InitializeBaseParams`,
  `ParseResponse`'s error wrapping, and the class `Service` with its
  constant fields, the fail-fast factory `Create`, the array
  builder `BuildParams`, `CallApi` and `Call`.
- `Clients` (`clients.dfy`): two callers that use only the contracts above.

The transport is not called: `CallApi` returns the `TransportCall` triple
(endpoint, required field names, built parameters) that the source passes
to `CreateRequest` and `CallAPIAsync`. The nine operation methods are the
constructors of `Operation`; `Service.Call(op, args)` is each of them.

`CallApi` passes the field names only to `CreateRequest`
(IDologyService.cs:101); the array handed to `CallAPIAsync` is the base
parameters followed directly by the caller's values (IDologyService.cs:102,
106-119).

## Model

| member | source | states |
|---|---|---|
| `Operations.SameSpecIffAliases` | IDologyService.cs:36-97 | the nine operation methods' table (`Spec`, one endpoint and field list each) gives two operations the same entry if and only if they are the AlertList/ExpectIdAlertList or ExpectIdScanOnboard/ExpectIdScanVerify aliases (or the same operation) |
| `Operations.AliasesHandSameCall` | IDologyService.cs:64-102 | given the same parameters, two operations hand the transport identical input if and only if they are aliases |
| `IDologyService.InitializeBaseParams` | IDologyService.cs:23-34 | succeeds if and only if neither username nor password is null or empty; on success the result is exactly `[username, password, "JSON"]` with no empty entry; otherwise the ArgumentException with the configuration message |
| `IDologyService.ParseResponse` | IDologyService.cs:121-132 | a decoded response is returned unchanged; a failure becomes a general error from which `WrappedMessage` reads back exactly the original message after the "Error: " prefix |
| `IDologyService.Service.constructor` | IDologyService.cs:15-21 | the stored fields are the given collaborator and configuration, and the base parameters are those the configuration yields |
| `IDologyService.Service.Create` | IDologyService.cs:15-34 | a null request factory, then a null configuration, is rejected with ArgumentNullException naming it; missing credentials with the ArgumentException; otherwise a new service whose base parameters are the credential triple |
| `IDologyService.Service.BuildParams` | IDologyService.cs:106-119 | the result has length base + arguments, holds the base parameters at their indices and argument `i` at index `base + i`, and is a different array from the argument array |
| `IDologyService.Service.CallApi` | IDologyService.cs:99-104 | succeeds for any number of arguments (the field list is never compared with them) and only fails on a null argument array; the transport gets the endpoint and field names unchanged and the base parameters followed by the arguments |
| `IDologyService.Service.Call` | IDologyService.cs:36-104 | each operation method hands the transport its own table entry and the built parameters |
| `IDologyService.ValidRequestLayout` | IDologyService.cs:106-116 | for a constructed service every request's parameters are three longer than the arguments, start with username, password and "JSON", and end with exactly the caller's arguments |
| `Clients.IdentityCheckScenario` | IDologyService.cs:36-41 | with username "u" and password "p", an identity check with eight values hands the transport `/api/idiq.svc`, its eight field names and `["u","p","JSON"]` followed by the eight values |
| `Clients.CallBoth` | IDologyService.cs:64-97 | two operation calls with the same arguments return the same result if and only if the array is null or the operations are aliases: both fail with the null-reference error when the array is null; otherwise the transport inputs are equal exactly when the operations are aliases |

## Left out

- `IDologyService.Service.BuildParams`: states that the result is a different array from the argument array rather than `fresh(r)`; that no existing array is changed follows from its empty `modifies` frame. Aliasing of the result cannot be observed in the model: its only caller, `CallApi`, copies the result to a sequence straight away.
- `IRequestFactory.CreateRequest` and `CallAPIAsync`: HTTP transport in files that are not part of this model; `CallApi` returns their inputs instead, so transport failures are not modelled.
- Reading the response body and `JsonConvert.DeserializeObject`: foreign code; `ParseResponse` takes their outcome (a decoded value or a failure message) as its input.
- `ExpectIdResponse`: defined outside this model; it is a type parameter of `ParseResponse`.
- `async`/`await` and `Task`: each operation is a sequential call.
- `IConfiguration`: only its two lookups are modelled, as two optional strings.
- `_baseParams` is a private `string[]` that is never written after construction; it is modelled as an immutable sequence.
- Null strings inside the argument array are not modelled: arguments are Dafny strings, which cannot be null.
- `CreateRequest` runs before `BuildParams` dereferences a null argument array; since the collaborator is not modelled, that ordering is not observable here.
