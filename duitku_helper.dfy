/**
 * The gateway helper of classes/duitku_helper.php: a class whose fields are
 * fixed by its constructor, and the two outbound requests it builds and
 * hands to curl. The request parts (URL, signature input, body, headers) are
 * pure functions; the curl exchange is the `Endpoint` class.
 */
module Duitku {
  import opened Wrappers
  import opened Php

  const SandboxBaseUrl: string := "https://api-sandbox.duitku.com/api/merchant"
  const ProductionBaseUrl: string := "https://api-prod.duitku.com/api/merchant"

  /** `duitku_status_codes::CHECK_STATUS_SUCCESS`. */
  const CheckStatusSuccess: string := "00"

  /**
   * Functions the source calls but whose internals are outside this model:
   * the two hashes, `json_encode` of a flat string array, and the reading of
   * `statusCode` from a JSON reply (`Some` only when the body decodes to an
   * object whose `statusCode` is a string).
   */
  datatype Primitives = Primitives(
    md5: string -> string,
    sha256: string -> string,
    jsonEncode: seq<(string, string)> -> string,
    statusOf: string -> Option<string>)

  /** A POST request as curl is told to send it. */
  datatype HttpPost = HttpPost(url: string, headers: seq<string>, body: string)

  /** What curl gives back: the body (`None` when `curl_exec` returns false) and the HTTP code. */
  datatype HttpReply = HttpReply(body: Option<string>, httpCode: int)

  /** The array `create_transaction` returns. */
  datatype CreateResult = CreateResult(request: Option<string>, httpCode: int)

  /** The array `check_transaction` returns. */
  datatype CheckResult = CheckResult(request: Option<string>, httpCode: int, url: string)

  /** The API base URL: sandbox exactly when the environment is the string "sandbox". */
  function BaseUrl(environment: string): (url: string)
    ensures (url == SandboxBaseUrl) <==> (environment == "sandbox")
    ensures url == SandboxBaseUrl || url == ProductionBaseUrl
  {
    if environment == "sandbox" then SandboxBaseUrl else ProductionBaseUrl
  }

  /**
   * The string both helper requests sign: the merchant code, then the
   * timestamp (`create_transaction`, hashed with SHA-256) or the order id
   * (`check_transaction`, hashed with MD5), then the key, with no delimiter.
   */
  function SignatureInput(merchantcode: string, middle: string, apikey: string): (s: string)
    ensures |s| == |merchantcode| + |middle| + |apikey|
    ensures s[..|merchantcode|] == merchantcode
    ensures s[|merchantcode|..|merchantcode| + |middle|] == middle
    ensures s[|merchantcode| + |middle|..] == apikey
  {
    merchantcode + middle + apikey
  }

  /** Header lines `name:value` built from (name, value) pairs, in order. */
  function HeaderLines(fields: seq<(string, string)>): (lines: seq<string>)
    ensures |lines| == |fields|
    ensures forall i :: 0 <= i < |fields| ==> lines[i] == fields[i].0 + ":" + fields[i].1
  {
    if fields == [] then [] else [fields[0].0 + ":" + fields[0].1] + HeaderLines(fields[1..])
  }

  /** The (name, value) pairs of the `create_transaction` headers, in the order curl sends them. */
  function CreateHeaderFields(paramsstring: string, signature: string, timestamp: string, merchantcode: string)
    : (fs: seq<(string, string)>)
    ensures |fs| == 5 && forall i :: 0 <= i < |fs| ==> ':' !in fs[i].0
    ensures fs[1].1 == " " + Decimal(|paramsstring|)
    ensures fs[2].1 == signature && fs[3].1 == timestamp && fs[4].1 == merchantcode
  {
    [ ("Content-Type", " application/json"),
      ("Content-Length", " " + Decimal(|paramsstring|)),
      ("x-duitku-signature", signature),
      ("x-duitku-timestamp", timestamp),
      ("x-duitku-merchantcode", merchantcode) ]
  }

  /** The (name, value) pairs of the `check_transaction` headers. */
  function CheckHeaderFields(paramsstring: string): (fs: seq<(string, string)>)
    ensures |fs| == 2 && forall i :: 0 <= i < |fs| ==> ':' !in fs[i].0
    ensures forall signature, timestamp, merchantcode ::
      fs == CreateHeaderFields(paramsstring, signature, timestamp, merchantcode)[..2]
  {
    [ ("Content-Type", " application/json"),
      ("Content-Length", " " + Decimal(|paramsstring|)) ]
  }

  /** The field name of a header line: everything before its first ':'. */
  function HeaderName(line: string): (name: string)
    ensures name <= line && ':' !in name
  {
    if line == [] || line[0] == ':' then [] else [line[0]] + HeaderName(line[1..])
  }

  /** The raw field value of a header line: everything after its first ':'. */
  function HeaderValue(line: string): (value: string)
    ensures |value| < |line| || line == []
  {
    if line == [] then [] else if line[0] == ':' then line[1..] else HeaderValue(line[1..])
  }

  /** A header written as name ':' value splits back into that name and value. */
  lemma {:induction false} HeaderSplit(name: string, value: string)
    requires ':' !in name
    ensures HeaderName(name + ":" + value) == name
    ensures HeaderValue(name + ":" + value) == value
    decreases |name|
  {
    var line := name + ":" + value;
    if name == [] {
      assert line == [':'] + value;
    } else {
      assert line[0] == name[0];
      assert line[1..] == name[1..] + ":" + value;
      HeaderSplit(name[1..], value);
    }
  }

  /** Every line built from colon-free names splits back into its own name and value. */
  lemma {:induction false} HeaderLinesSplit(fields: seq<(string, string)>)
    requires forall i :: 0 <= i < |fields| ==> ':' !in fields[i].0
    ensures forall i :: 0 <= i < |fields| ==>
      HeaderName(HeaderLines(fields)[i]) == fields[i].0 && HeaderValue(HeaderLines(fields)[i]) == fields[i].1
  {
    forall i | 0 <= i < |fields|
      ensures HeaderName(HeaderLines(fields)[i]) == fields[i].0 && HeaderValue(HeaderLines(fields)[i]) == fields[i].1
    {
      HeaderSplit(fields[i].0, fields[i].1);
    }
  }

  /**
   * The five `create_transaction` headers carry, in order, Content-Type,
   * Content-Length (whose value reads back as the body length), the
   * signature, the timestamp and the merchant code.
   */
  lemma {:induction false} CreateHeadersFields(paramsstring: string, signature: string, timestamp: string, merchantcode: string)
    requires |paramsstring| <= IntMax
    ensures var h := HeaderLines(CreateHeaderFields(paramsstring, signature, timestamp, merchantcode));
      && |h| == 5
      && HeaderName(h[0]) == "Content-Type" && HeaderValue(h[0]) == " application/json"
      && HeaderName(h[1]) == "Content-Length" && IntCast(HeaderValue(h[1])) == |paramsstring|
      && HeaderName(h[2]) == "x-duitku-signature" && HeaderValue(h[2]) == signature
      && HeaderName(h[3]) == "x-duitku-timestamp" && HeaderValue(h[3]) == timestamp
      && HeaderName(h[4]) == "x-duitku-merchantcode" && HeaderValue(h[4]) == merchantcode
  {
    var fields := CreateHeaderFields(paramsstring, signature, timestamp, merchantcode);
    HeaderLinesSplit(fields);
    ContentLengthValue(|paramsstring|);
  }

  /** The Content-Length value reads back, under `(int)`, as the length it renders. */
  lemma {:induction false} ContentLengthValue(n: nat)
    requires n <= IntMax
    ensures IntCast(" " + Decimal(n)) == n
  {
    IntCastOfDecimal(" ", n, "");
    assert " " + Decimal(n) + "" == " " + Decimal(n);
  }

  /** The `check_transaction` headers are Content-Type and a Content-Length matching the body. */
  lemma {:induction false} CheckHeadersFields(paramsstring: string)
    requires |paramsstring| <= IntMax
    ensures var h := HeaderLines(CheckHeaderFields(paramsstring));
      && |h| == 2
      && HeaderName(h[0]) == "Content-Type" && HeaderValue(h[0]) == " application/json"
      && HeaderName(h[1]) == "Content-Length" && IntCast(HeaderValue(h[1])) == |paramsstring|
  {
    HeaderLinesSplit(CheckHeaderFields(paramsstring));
    ContentLengthValue(|paramsstring|);
  }

  /** The parameter array `check_transaction` JSON-encodes. */
  function CheckParams(merchantcode: string, merchantorderid: string, signature: string): (ps: seq<(string, string)>)
    ensures Keys(ps) == ["merchantCode", "merchantOrderId", "signature"]
  {
    [("merchantCode", merchantcode), ("merchantOrderId", merchantorderid), ("signature", signature)]
  }

  /** The value stored under `key` in a PHP array of string pairs. */
  function Field(pairs: seq<(string, string)>, key: string): (v: Option<string>)
    ensures v.None? <==> forall i :: 0 <= i < |pairs| ==> pairs[i].0 != key
    ensures v.Some? ==> exists i :: 0 <= i < |pairs| && pairs[i] == (key, v.value)
  {
    if pairs == [] then None
    else if pairs[0].0 == key then Some(pairs[0].1)
    else Field(pairs[1..], key)
  }

  /** The keys of a PHP array of string pairs, in order. */
  function Keys(pairs: seq<(string, string)>): (ks: seq<string>)
    ensures |ks| == |pairs| && forall i :: 0 <= i < |pairs| ==> ks[i] == pairs[i].0
  {
    if pairs == [] then [] else [pairs[0].0] + Keys(pairs[1..])
  }

  /**
   * The check body has exactly the keys merchantCode, merchantOrderId and
   * signature, filled from the given values, and no other key.
   */
  lemma {:induction false} CheckParamsFields(merchantcode: string, merchantorderid: string, signature: string, other: string)
    requires other != "merchantCode" && other != "merchantOrderId" && other != "signature"
    ensures var ps := CheckParams(merchantcode, merchantorderid, signature);
      && Keys(ps) == ["merchantCode", "merchantOrderId", "signature"]
      && Field(ps, "merchantCode") == Some(merchantcode)
      && Field(ps, "merchantOrderId") == Some(merchantorderid)
      && Field(ps, "signature") == Some(signature)
      && Field(ps, other) == None
  {
    var ps := CheckParams(merchantcode, merchantorderid, signature);
    assert ps[1..] == [("merchantOrderId", merchantorderid), ("signature", signature)];
    assert ps[2..] == [("signature", signature)];
    assert "merchantCode" != "signature" && "merchantOrderId" != "signature";
    assert Field(ps, "signature") == Field(ps[1..], "signature") == Field(ps[2..], "signature");
    assert Field(ps, "merchantOrderId") == Field(ps[1..], "merchantOrderId");
  }

  /** The request `create_transaction` sends. */
  function CreateTransactionPost(merchantcode: string, apikey: string, baseurl: string,
                                 paramsstring: string, timestamp: string, prim: Primitives): (post: HttpPost)
    ensures post.url == baseurl + "/createInvoice" && post.body == paramsstring
    ensures |post.headers| == 5
    ensures post.headers[2] == "x-duitku-signature:" + prim.sha256(SignatureInput(merchantcode, timestamp, apikey))
  {
    var signature := prim.sha256(SignatureInput(merchantcode, timestamp, apikey));
    HttpPost(baseurl + "/createInvoice", HeaderLines(CreateHeaderFields(paramsstring, signature, timestamp, merchantcode)), paramsstring)
  }

  /** The request `check_transaction` sends. */
  function CheckTransactionPost(merchantcode: string, apikey: string, merchantorderid: string,
                                baseurl: string, prim: Primitives): (post: HttpPost)
    ensures post.url == baseurl + "/transactionStatus"
    ensures post.body == prim.jsonEncode(CheckParams(merchantcode, merchantorderid,
      prim.md5(SignatureInput(merchantcode, merchantorderid, apikey))))
    ensures |post.headers| == 2
  {
    var signature := prim.md5(SignatureInput(merchantcode, merchantorderid, apikey));
    var paramsstring := prim.jsonEncode(CheckParams(merchantcode, merchantorderid, signature));
    HttpPost(baseurl + "/transactionStatus", HeaderLines(CheckHeaderFields(paramsstring)), paramsstring)
  }

  /**
   * Both requests go to the sandbox host exactly when the environment is
   * "sandbox"; the paths are "/createInvoice" and "/transactionStatus".
   */
  lemma {:induction false} RequestUrls(environment: string, merchantcode: string, apikey: string, merchantorderid: string,
                    paramsstring: string, timestamp: string, prim: Primitives)
    ensures var base := BaseUrl(environment);
      var create := CreateTransactionPost(merchantcode, apikey, base, paramsstring, timestamp, prim).url;
      var check := CheckTransactionPost(merchantcode, apikey, merchantorderid, base, prim).url;
      && (SandboxBaseUrl <= create <==> environment == "sandbox")
      && (SandboxBaseUrl <= check <==> environment == "sandbox")
      && create[|base|..] == "/createInvoice"
      && check[|base|..] == "/transactionStatus"
  {
    var base := BaseUrl(environment);
    if environment != "sandbox" {
      assert base[12] == 'p' && SandboxBaseUrl[12] == 's';
    }
  }

  /** The remote gateway as curl reaches it: each POST is recorded and answered. */
  class Endpoint {
    /** How the remote side answers a request; outside this model. */
    const respond: HttpPost -> HttpReply
    /** Every request sent so far, oldest first. */
    var sent: seq<HttpPost>

    constructor (respond: HttpPost -> HttpReply)
      ensures this.respond == respond && sent == []
    {
      this.respond := respond;
      sent := [];
    }

    /** `curl_exec` followed by `curl_getinfo(..., CURLINFO_HTTP_CODE)`. */
    method Exchange(post: HttpPost) returns (reply: HttpReply)
      modifies this
      ensures sent == old(sent) + [post]
      ensures reply == respond(post)
    {
      sent := sent + [post];
      reply := respond(post);
    }
  }

  /** `duitku_helper`: its fields are assigned once, by the constructor, and never again. */
  class Helper {
    const merchantcode: string
    const apikey: string
    const merchantorderid: string
    const environment: string
    const baseurl: string

    constructor (merchantcode: string, apikey: string, merchantorderid: string, environment: string)
      ensures this.merchantcode == merchantcode && this.apikey == apikey
      ensures this.merchantorderid == merchantorderid && this.environment == environment
      ensures baseurl == BaseUrl(environment)
    {
      this.merchantcode := merchantcode;
      this.apikey := apikey;
      this.merchantorderid := merchantorderid;
      this.environment := environment;
      this.baseurl := BaseUrl(environment);
    }

    /**
     * `create_transaction`: one POST to the createInvoice endpoint signed with
     * the caller's timestamp; the reply is returned as it came.
     */
    method CreateTransaction(paramsstring: string, timestamp: string, prim: Primitives, net: Endpoint)
      returns (r: CreateResult)
      modifies net
      ensures var post := CreateTransactionPost(merchantcode, apikey, baseurl, paramsstring, timestamp, prim);
        && net.sent == old(net.sent) + [post]
        && r == CreateResult(net.respond(post).body, net.respond(post).httpCode)
    {
      var url := baseurl + "/createInvoice";
      var signature := prim.sha256(merchantcode + timestamp + apikey);
      var curloptheader := HeaderLines(CreateHeaderFields(paramsstring, signature, timestamp, merchantcode));
      var reply := net.Exchange(HttpPost(url, curloptheader, paramsstring));
      r := CreateResult(reply.body, reply.httpCode);
    }

    /**
     * `check_transaction`: one POST to the transactionStatus endpoint whose
     * body is signed from the fields alone; the reply and the URL are
     * returned as they are.
     */
    method CheckTransaction(prim: Primitives, net: Endpoint) returns (r: CheckResult)
      modifies net
      ensures var post := CheckTransactionPost(merchantcode, apikey, merchantorderid, baseurl, prim);
        && net.sent == old(net.sent) + [post]
        && r == CheckResult(net.respond(post).body, net.respond(post).httpCode, post.url)
    {
      var url := baseurl + "/transactionStatus";
      var signature := prim.md5(merchantcode + merchantorderid + apikey);
      var paramsstring := prim.jsonEncode(CheckParams(merchantcode, merchantorderid, signature));
      var reply := net.Exchange(HttpPost(url, HeaderLines(CheckHeaderFields(paramsstring)), paramsstring));
      r := CheckResult(reply.body, reply.httpCode, url);
    }
  }
}
