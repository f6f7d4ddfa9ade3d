/** Callers of the service, showing what its contracts let a client conclude. */
module Clients {
  import opened Wrappers
  import opened Operations
  import opened IDologyService

  /**
    A service configured with username "u" and password "p" hands an
    identity check the credentials, "JSON" and the caller's eight values.
   */
  method IdentityCheckScenario() returns (r: Result<TransportCall, Error>)
    ensures r == Success(TransportCall(
      "/api/idiq.svc",
      ["firstName", "lastName", "address", "city", "state", "zip", "country", "ssn"],
      ["u", "p", "JSON", "John", "Doe", "1 Main St", "Springfield", "IL", "62704", "US", "123-45-6789"]))
  {
    var factory := new RequestFactory();
    var created := Service.Create(factory, Some(Configuration(Some("u"), Some("p"))));
    var s := created.value;
    var args := new string[] ["John", "Doe", "1 Main St", "Springfield", "IL", "62704", "US", "123-45-6789"];
    assert s.baseParams == ["u", "p", "JSON"];
    assert args[..] == ["John", "Doe", "1 Main St", "Springfield", "IL", "62704", "US", "123-45-6789"];
    assert s.baseParams + args[..]
      == ["u", "p", "JSON", "John", "Doe", "1 Main St", "Springfield", "IL", "62704", "US", "123-45-6789"];
    r := s.Call(ExpectID, args);
  }

  /**
    Two operations called with the same arguments hand the transport the
    same input exactly when they are aliases, or when both fail on a null
    argument array.
   */
  method CallBoth(s: Service, a: Operation, b: Operation, args: array?<string>)
    returns (ra: Result<TransportCall, Error>, rb: Result<TransportCall, Error>)
    ensures ra == rb <==> args == null || Canonical(a) == Canonical(b)
  {
    ra := s.Call(a, args);
    rb := s.Call(b, args);
    if args != null {
      AliasesHandSameCall(a, b, s.baseParams + args[..]);
    }
  }
}
