/** The bot-filter check (`lib/captcha.ts`): a fail-closed decision over the
    reply of the external scoring service. The HTTPS call is the `oracle`
    parameter: given the secret key and the client's token it yields the
    parsed reply, or `Threw` when the call or the parse raised. */
module Captcha {
  import opened Common

  /** The parsed JSON of the scoring service, `{ success, score }`; either
      field may be absent. */
  datatype OracleReply = Threw | Parsed(success: Option<bool>, score: Option<real>)

  /** The lowest score taken as human. */
  const MinScore: real := 0.5

  /** `verifyCaptcha(token)`, with `secretKey` the configured
      `RECAPTCHA_SECRET_KEY` (`None` when unset). */
  function VerifyCaptcha(secretKey: Option<string>, token: string,
                         oracle: (string, string) -> OracleReply): (ok: bool)
    ensures ok <==> Truthy(secretKey)
                    && oracle(secretKey.value, token).Parsed?
                    && oracle(secretKey.value, token).success == Some(true)
                    && oracle(secretKey.value, token).score.Some?
                    && oracle(secretKey.value, token).score.value >= MinScore
  {
    if !Truthy(secretKey) then
      false
    else
      match oracle(secretKey.value, token)
      case Threw => false
      case Parsed(success, score) =>
        success == Some(true) && score.Some? && score.value >= MinScore
  }

  /** Without a secret key the answer is "not human" whatever the service
      would have said: the service is never consulted. */
  lemma NoKeyNoOracle(secretKey: Option<string>, token: string,
                      o1: (string, string) -> OracleReply, o2: (string, string) -> OracleReply)
    requires !Truthy(secretKey)
    ensures VerifyCaptcha(secretKey, token, o1) == VerifyCaptcha(secretKey, token, o2) == false
  {
  }

  /** Fail closed: a raised call, a reply without `success`, a reply without
      a score and a score under 0.5 all mean "not human". */
  lemma FailsClosed(key: string, token: string, oracle: (string, string) -> OracleReply)
    requires key != ""
    requires || oracle(key, token).Threw?
             || oracle(key, token).success != Some(true)
             || oracle(key, token).score.None?
             || oracle(key, token).score.value < MinScore
    ensures !VerifyCaptcha(Some(key), token, oracle)
  {
  }
}
