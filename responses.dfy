/** How both writers judge an HTTP response code from the InfluxDB server. */
module Responses {

  /** 200 (OK) and 204 (No Content) are the two codes the writers accept as success. */
  predicate IsSuccessCode(code: int)
  {
    code == 200 || code == 204
  }

  /** The test guarding the "Fail to create database" log after `createDatabase`, as
      written: `respondCode != 200 || respondCode != 204`. */
  predicate DatabaseFailureLoggedAsWritten(code: int): (logged: bool)
    ensures logged
  {
    code != 200 || code != 204
  }

  /** As written, the failure log fires for every code, the two success codes included. */
  lemma {:induction false} DatabaseFailureAlwaysLogged(code: int)
    ensures DatabaseFailureLoggedAsWritten(code)
    ensures DatabaseFailureLoggedAsWritten(200) && DatabaseFailureLoggedAsWritten(204)
  {
    if code == 200 {
      assert code != 204;
    }
  }

  /** The evidently intended test: log a failure exactly when the code is not a success. */
  function DatabaseFailureLogged(code: int): (logged: bool)
    ensures logged <==> !IsSuccessCode(code)
    ensures logged ==> code != 200 && code != 204
  {
    code != 200 && code != 204
  }
}
