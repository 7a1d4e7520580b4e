/** The generation endpoint `POST /api/generate-image`: a fixed chain of
    guards on the request and the provider's answer, each ending in a JSON
    response that carries the CORS headers. The provider credential is the
    value of `REPLICATE_API_TOKEN` ("" when unset), and the provider's
    answer is an input: what `replicate.run` returned or threw. */
module GenerateRoute {
  import opened Outcomes

  const NoPrompt := "请提供描述文字"
  const NoToken := "服务器配置错误：缺少API Token"
  const EmptyResult := "生成结果为空"
  const GenericError := "生成图片时出现错误，请稍后重试"
  const GatewayTimeoutError := "生成超时，请重试"
  const ValidationError := "参数验证失败，请稍后重试"
  const ConnectionTimeoutError := "连接超时，请重试"

  /** The provider's output, as a JavaScript value: nothing (undefined or
      null), a string, or a list of strings. */
  datatype Output = NoOutput | Single(url: string) | Many(urls: seq<string>)

  /** JavaScript truthiness of an output: a list is truthy even when empty. */
  predicate Truthy(o: Output)
  {
    match o
    case NoOutput => false
    case Single(url) => url != ""
    case Many(_) => true
  }

  /** A `prompt` field present in the JSON body: a string, or another JSON
      value (number, boolean, null, object, array) with its truthiness. */
  datatype PromptField = Text(text: string) | NonText(truthy: bool)

  /** The body of the request: unreadable JSON, or an object whose
      `prompt` is missing or present. */
  datatype Request = Unreadable | Json(prompt: Option<PromptField>)

  /** `prompt` is truthy: a non-empty string or a truthy other value. */
  predicate PromptGiven(req: Request)
    requires req.Json?
  {
    match req.prompt
    case None => false
    case Some(Text(t)) => t != ""
    case Some(NonText(truthy)) => truthy
  }

  /** A thrown provider error: `error.response?.status` and `error.code`. */
  datatype ProviderFault = ProviderFault(responseStatus: Option<int>, code: string)

  datatype ProviderAnswer = Returned(output: Output) | Threw(fault: ProviderFault)

  /** The JSON body: `error` ("" when absent) and `prediction`. */
  datatype Body = Body(error: string, prediction: Output)

  datatype Response = Response(status: int, body: Body, headers: map<string, string>)

  const JsonHeaders: map<string, string> := map[
    "Content-Type" := "application/json",
    "Access-Control-Allow-Origin" := "*",
    "Access-Control-Allow-Methods" := "GET, POST, PUT, DELETE, OPTIONS",
    "Access-Control-Allow-Headers" := "Content-Type, Authorization"]

  function Reply(status: int, body: Body): Response
  {
    Response(status, body, JsonHeaders)
  }

  function ErrorReply(status: int, message: string): Response
  {
    Reply(status, Body(message, NoOutput))
  }

  /** The catch block: a response status of 504, then 422, then the code
      `ETIMEDOUT`, and otherwise a generic failure. */
  function FaultReply(f: ProviderFault): (r: Response)
    ensures r.status == 504 <==> f.responseStatus == Some(504)
    ensures r.status == 422 <==> f.responseStatus == Some(422)
    ensures r.status == 408 <==> f.responseStatus != Some(504) && f.responseStatus != Some(422) && f.code == "ETIMEDOUT"
    ensures r.status == 500 <==> f.responseStatus != Some(504) && f.responseStatus != Some(422) && f.code != "ETIMEDOUT"
  {
    if f.responseStatus == Some(504) then ErrorReply(504, GatewayTimeoutError)
    else if f.responseStatus == Some(422) then ErrorReply(422, ValidationError)
    else if f.code == "ETIMEDOUT" then ErrorReply(408, ConnectionTimeoutError)
    else ErrorReply(500, GenericError)
  }

  /** `POST(req)` */
  function Post(req: Request, token: string, provider: ProviderAnswer): (r: Response)
    ensures r.status in {200, 400, 408, 422, 500, 504}
    ensures r.headers == JsonHeaders
    ensures req.Json? && !PromptGiven(req) ==> r == ErrorReply(400, NoPrompt)
    ensures req.Json? && PromptGiven(req) && token == "" ==> r == ErrorReply(500, NoToken)
    ensures r.status == 200 <==>
              req.Json? && PromptGiven(req) && token != "" && provider.Returned? && Truthy(provider.output)
    ensures r.status == 200 ==> r.body == Body("", provider.output)
    ensures req.Json? && PromptGiven(req) && token != "" && provider.Threw? ==> r == FaultReply(provider.fault)
    ensures req.Unreadable? ==> r == ErrorReply(500, GenericError)
    ensures r.status != 200 ==> r.body.prediction == NoOutput && r.body.error != ""
  {
    match req
    case Unreadable =>
      // the body cannot be parsed: the catch block sees an error without status or code
      FaultReply(ProviderFault(None, ""))
    case Json(prompt) =>
      if !PromptGiven(req) then ErrorReply(400, NoPrompt)
      else if token == "" then ErrorReply(500, NoToken)
      else
        match provider
        case Threw(f) => FaultReply(f)
        case Returned(output) =>
          if !Truthy(output) then ErrorReply(500, EmptyResult)
          else Reply(200, Body("", output))
  }

  /** Without a prompt or without a credential the provider is not called:
      the response does not depend on what it would have answered. */
  lemma ProviderNotCalledOnGuards(req: Request, token: string, a: ProviderAnswer, b: ProviderAnswer)
    requires req.Json? && (!PromptGiven(req) || token == "")
    ensures Post(req, token, a) == Post(req, token, b)
  {
  }

  /** A prompt made of spaces passes the prompt guard. */
  lemma BlankPromptPasses(token: string, provider: ProviderAnswer)
    requires token != ""
    ensures Post(Json(Some(Text("   "))), token, provider).status != 400
  {
  }

  /** An empty result is a 500 with its own message. */
  lemma EmptyOutputIsServerError(req: Request, token: string, output: Output)
    requires req.Json? && PromptGiven(req) && token != "" && !Truthy(output)
    ensures Post(req, token, Returned(output)) == ErrorReply(500, EmptyResult)
  {
  }

  /** The status check precedes the code check: a 504 carrying the code
      `ETIMEDOUT` stays a 504. */
  lemma StatusBeforeCode(req: Request, token: string)
    requires req.Json? && PromptGiven(req) && token != ""
    ensures Post(req, token, Threw(ProviderFault(Some(504), "ETIMEDOUT"))).status == 504
  {
  }
}
