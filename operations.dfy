/**
  The fixed table of vendor operations. Each public operation method of the
  IDology service binds one endpoint path and one ordered list of required
  field names, and hands them unchanged to the shared call routine.
 */
module Operations {

  /** One constructor per public operation method of the service. */
  datatype Operation =
    | ExpectID
    | ExpectIDEmail
    | EmailStandalone
    | ExpectIDGeoTrace
    | AlertList
    | ExpectIdPA
    | ExpectIdScanOnboard
    | ExpectIdScanVerify
    | ExpectIdAlertList

  /** The constant pair an operation method passes to the call routine. */
  datatype OperationSpec = OperationSpec(endpoint: string, requiredParams: seq<string>)

  /**
    What one call hands to the transport collaborator: the endpoint and the
    required field names given to CreateRequest, then the positional
    parameter values given to CallAPIAsync.
   */
  datatype TransportCall = TransportCall(endpoint: string, requiredParams: seq<string>, params: seq<string>)

  const IdiqEndpoint := "/api/idiq.svc"
  const EmailStandaloneEndpoint := "/api/email-standalone.svc"
  const AlertListEndpoint := "/api/alert-list.svc"
  const PaStandaloneEndpoint := "/api/pa-standalone.svc"
  const IdScanPerformEndpoint := "/api/idscanperform.svc"

  /** Field lists shared by the aliased operations. */
  const AlertListFields := ["alertlist", "fieldToCheck", "valueToBlock", "alertlist", "action"]
  const IdScanFields := ["queryId", "image", "backImage", "countryCode", "scanDocumentType", "faceImage", "ipAddress"]

  /** The endpoint and required field names each operation method binds. */
  function Spec(op: Operation): OperationSpec {
    match op
    case ExpectID =>
      OperationSpec(IdiqEndpoint, ["firstName", "lastName", "address", "city", "state", "zip", "country", "ssn"])
    case ExpectIDEmail =>
      OperationSpec(IdiqEndpoint, ["firstName", "lastName", "address", "city", "state", "zip", "email"])
    case EmailStandalone =>
      OperationSpec(EmailStandaloneEndpoint, ["invoice", "firstName", "lastName", "email"])
    case ExpectIDGeoTrace =>
      OperationSpec(IdiqEndpoint, ["firstName", "lastName", "address", "city", "state", "zip", "ipAddress"])
    case AlertList =>
      OperationSpec(AlertListEndpoint, AlertListFields)
    case ExpectIdPA =>
      OperationSpec(PaStandaloneEndpoint, ["firstName", "lastName", "address", "city", "state", "zip"])
    case ExpectIdScanOnboard =>
      OperationSpec(IdScanPerformEndpoint, IdScanFields)
    case ExpectIdScanVerify =>
      OperationSpec(IdScanPerformEndpoint, IdScanFields)
    case ExpectIdAlertList =>
      OperationSpec(AlertListEndpoint, AlertListFields)
  }

  /**
    Reference definition of the deliberate aliases: ExpectIdAlertList routes
    like AlertList and ExpectIdScanVerify like ExpectIdScanOnboard; every
    other operation stands for itself.
   */
  function Canonical(op: Operation): Operation {
    match op
    case ExpectIdAlertList => AlertList
    case ExpectIdScanVerify => ExpectIdScanOnboard
    case _ => op
  }

  /** The transport input of operation `op` called with positional values `params`. */
  function RequestFor(op: Operation, params: seq<string>): TransportCall {
    TransportCall(Spec(op).endpoint, Spec(op).requiredParams, params)
  }

  /** Two operations bind the same (endpoint, fields) pair exactly when they are aliases. */
  lemma SameSpecIffAliases(a: Operation, b: Operation)
    ensures Spec(a) == Spec(b) <==> Canonical(a) == Canonical(b)
  {
  }

  /**
    Given the same parameter values, two operations hand the transport
    identical input exactly when they are aliases of each other.
   */
  lemma AliasesHandSameCall(a: Operation, b: Operation, params: seq<string>)
    ensures RequestFor(a, params) == RequestFor(b, params) <==> Canonical(a) == Canonical(b)
  {
  }
}
