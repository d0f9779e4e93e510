/**
 * The status mapping of the `GET /health` handler. The database ping is I/O
 * and is an input here: `pingOk` is true when the ping returned no error.
 */
module Health {

  const StatusOK := 200
  const StatusServiceUnavailable := 503

  datatype Response = Response(statusCode: int, body: string)

  /** The part of the body that comes before the status. */
  const StatusField := "{\"status\":\""

  /** The part of the body that follows the status. */
  const DatabaseField := "\",\"database\":\"connected\"}"

  /** The JSON body the handler writes for a given status word. */
  function HealthBody(status: string): string
  {
    StatusField + status + DatabaseField
  }

  /**
   * The health response: 200 with status "healthy" exactly when the ping
   * succeeded, 503 with status "unhealthy" otherwise. The "database" field
   * reads "connected" on both paths.
   */
  function HealthCheck(pingOk: bool): (r: Response)
    ensures r.statusCode == StatusOK <==> pingOk
    ensures !pingOk ==> r.statusCode == StatusServiceUnavailable
    ensures pingOk ==> r.body == "{\"status\":\"healthy\",\"database\":\"connected\"}"
    ensures !pingOk ==> r.body == "{\"status\":\"unhealthy\",\"database\":\"connected\"}"
  {
    BodyLiterals();
    var status := if pingOk then "healthy" else "unhealthy";
    Response(if pingOk then StatusOK else StatusServiceUnavailable, HealthBody(status))
  }

  /**
   * The two bodies the handler can write, spelled out. Each literal is its
   * own lemma: the solver proves them one at a time, not both at once.
   */
  lemma BodyLiterals()
    ensures HealthBody("healthy") == "{\"status\":\"healthy\",\"database\":\"connected\"}"
    ensures HealthBody("unhealthy") == "{\"status\":\"unhealthy\",\"database\":\"connected\"}"
  {
    HealthyLiteral();
    UnhealthyLiteral();
  }

  lemma HealthyLiteral()
    ensures HealthBody("healthy") == "{\"status\":\"healthy\",\"database\":\"connected\"}"
  {
  }

  lemma UnhealthyLiteral()
    ensures HealthBody("unhealthy") == "{\"status\":\"unhealthy\",\"database\":\"connected\"}"
  {
  }

  /** The status word can be read back out of a body: it sits between the two fixed parts. */
  lemma {:induction false} StatusOfBody(status: string)
    ensures |HealthBody(status)| == |StatusField| + |status| + |DatabaseField|
    ensures HealthBody(status)[|StatusField|..|StatusField| + |status|] == status
  {
    var b := HealthBody(status);
    assert b == StatusField + (status + DatabaseField);
    assert b[|StatusField|..] == status + DatabaseField;
    assert (status + DatabaseField)[..|status|] == status;
  }

  /**
   * Two bodies are equal only when their status words are: the fixed parts
   * around the status carry no information.
   */
  lemma HealthBodyInjective(s1: string, s2: string)
    requires HealthBody(s1) == HealthBody(s2)
    ensures s1 == s2
  {
    StatusOfBody(s1);
    StatusOfBody(s2);
  }

  /**
   * Both outcomes write the same body shape and differ only in the status
   * word: "healthy" for a successful ping and "unhealthy" for a failed one.
   */
  lemma HealthBodiesDiffer()
    ensures HealthCheck(true).body == HealthBody("healthy")
    ensures HealthCheck(false).body == HealthBody("unhealthy")
    ensures HealthCheck(true).body != HealthCheck(false).body
  {
    if HealthBody("healthy") == HealthBody("unhealthy") {
      HealthBodyInjective("healthy", "unhealthy");
    }
  }
}
