/**
 * The data logic of the generated HTTP client (frontend/app/lib/client.ts): how the
 * request configuration handed to axios is assembled from the instance defaults, the
 * per-call parameters and the security worker's output, and how a request body is
 * turned into multipart form data or text. The axios dispatch itself is not modelled:
 * `Request` returns the configuration it would dispatch.
 */
module HttpClient {
  import opened Wrappers
  import opened JsValues

  /** The `ContentType` enumeration. */
  datatype ContentType = Json | JsonApi | MultipartFormData | UrlEncoded | Text

  /** The MIME string each content type stands for. */
  function ContentTypeValue(t: ContentType): string
  {
    match t
    case Json => "application/json"
    case JsonApi => "application/vnd.api+json"
    case MultipartFormData => "multipart/form-data"
    case UrlEncoded => "application/x-www-form-urlencoded"
    case Text => "text/plain"
  }

  /** The five content types carry five different MIME strings. */
  lemma ContentTypeValuesDistinct(s: ContentType, t: ContentType)
    requires ContentTypeValue(s) == ContentTypeValue(t)
    ensures s == t
  {
  }

  /** ASCII `toLowerCase` of one character. */
  function LowerChar(c: char): char
  {
    if 'A' <= c <= 'Z' then (c as int + 32) as char else c
  }

  /** ASCII `toLowerCase`. */
  function Lower(s: string): (r: string)
    ensures |r| == |s|
    ensures forall i :: 0 <= i < |s| ==> r[i] == LowerChar(s[i])
  {
    seq(|s|, i requires 0 <= i < |s| => LowerChar(s[i]))
  }

  /** `params1.method || (params2 && params2.method)`. */
  function MethodOf(params1: seq<Prop>, params2: Option<seq<Prop>>): JsValue
  {
    var m := Get(params1, "method");
    if Truthy(m) then m
    else if params2.Some? then Get(params2.value, "method")
    else Undefined
  }

  /** `(method && defaults.headers[method.toLowerCase()]) || {}`. */
  function MethodHeaders(defaults: seq<Prop>, verb: JsValue): JsValue
  {
    var h := if verb.Str? && Truthy(verb) then Get(Spread(Get(defaults, "headers")), Lower(verb.s))
             else Undefined;
    if Truthy(h) then h else Obj([])
  }

  /** `(params2 && params2.headers) || {}`. */
  function SecondHeaders(params2: Option<seq<Prop>>): seq<Prop>
  {
    if params2.Some? then Spread(Get(params2.value, "headers")) else []
  }

  /** `params2 || {}` spread. */
  function SecondProps(params2: Option<seq<Prop>>): seq<Prop>
  {
    if params2.Some? then params2.value else []
  }

  /**
   * The merged header object: a header set by `params2` wins over one set by `params1`, which
   * wins over the defaults for the request's method; it has exactly the headers of the three.
   */
  function MergedHeaders(defaults: seq<Prop>, params1: seq<Prop>, params2: Option<seq<Prop>>): (r: seq<Prop>)
    ensures var methodHeaders := Spread(MethodHeaders(defaults, MethodOf(params1, params2)));
      var first := Spread(Get(params1, "headers"));
      forall h :: Has(r, h) <==> Has(methodHeaders, h) || Has(first, h) || Has(SecondHeaders(params2), h)
    ensures var methodHeaders := Spread(MethodHeaders(defaults, MethodOf(params1, params2)));
      var first := Spread(Get(params1, "headers"));
      forall h :: Get(r, h) == if Has(SecondHeaders(params2), h) then Get(SecondHeaders(params2), h)
                               else if Has(first, h) then Get(first, h)
                               else Get(methodHeaders, h)
  {
    var methodHeaders := Spread(MethodHeaders(defaults, MethodOf(params1, params2)));
    var first := Spread(Get(params1, "headers"));
    AssignPrecedence(methodHeaders, first);
    AssignPrecedence(Assign(methodHeaders, first), SecondHeaders(params2));
    Assign(Assign(methodHeaders, first), SecondHeaders(params2))
  }

  /**
   * `mergeRequestParams`: outside `headers`, a key set by `params2` wins over `params1`, which
   * wins over the instance defaults, and the merge has exactly the keys of the three; `headers`
   * is the merged header object.
   */
  function MergeRequestParams(defaults: seq<Prop>, params1: seq<Prop>, params2: Option<seq<Prop>>): (r: seq<Prop>)
    ensures Get(r, "headers") == Obj(MergedHeaders(defaults, params1, params2))
    ensures forall k :: k != "headers" ==>
      (Has(r, k) <==> Has(defaults, k) || Has(params1, k) || Has(SecondProps(params2), k))
    ensures forall k :: k != "headers" ==>
      Get(r, k) == if Has(SecondProps(params2), k) then Get(SecondProps(params2), k)
                   else if Has(params1, k) then Get(params1, k)
                   else Get(defaults, k)
  {
    var inner := Assign(defaults, params1);
    AssignPrecedence(defaults, params1);
    AssignPrecedence(inner, SecondProps(params2));
    PutPrecedence(Assign(inner, SecondProps(params2)), "headers", Obj(MergedHeaders(defaults, params1, params2)));
    Put(Assign(inner, SecondProps(params2)), "headers", Obj(MergedHeaders(defaults, params1, params2)))
  }

  /** The method whose defaults apply is `params1`'s whenever `params1` names one. */
  lemma MethodFromFirstParams(params1: seq<Prop>, params2: Option<seq<Prop>>)
    ensures Truthy(Get(params1, "method")) ==> MethodOf(params1, params2) == Get(params1, "method")
    ensures !Truthy(Get(params1, "method")) && params2.Some? ==> MethodOf(params1, params2) == Get(params2.value, "method")
    ensures !Truthy(Get(params1, "method")) && params2.None? ==> !Truthy(MethodOf(params1, params2))
  {
  }

  /** `${v}` for a value that is not a non-null object. */
  function TemplateString(v: JsValue): string
    requires !IsObject(v)
  {
    match v
    case Undefined => "undefined"
    case Null => "null"
    case Bool(b) => if b then "true" else "false"
    case Num(n) => IntToString(n)
    case Str(s) => s
  }

  /** `stringifyFormItem`: non-null objects are JSON-encoded by `stringify`, everything else string-converted. */
  function StringifyFormItem(v: JsValue, stringify: JsValue -> string): (r: string)
    ensures IsObject(v) ==> r == stringify(v)
    ensures v.Str? ==> r == v.s
    ensures v.Null? ==> r == "null"
    ensures v.Undefined? ==> r == "undefined"
    ensures v.Num? ==> r == IntToString(v.n)
    ensures v.Bool? ==> r == if v.b then "true" else "false"
  {
    if IsObject(v) then stringify(v) else TemplateString(v)
  }

  /** What is appended for one item: a blob or file as it is, anything else stringified. */
  function EntryValue(item: JsValue, stringify: JsValue -> string): FormEntryValue
  {
    if item.BlobVal? || item.FileVal? then FileEntry(item) else TextEntry(StringifyFormItem(item, stringify))
  }

  /** The items `property` expands into: an array's elements, or the value itself. */
  function PropertyContent(property: JsValue): seq<JsValue>
  {
    if property.Arr? then property.items else [property]
  }

  /** The entries appended for one key. */
  function EntriesFor(key: string, property: JsValue, stringify: JsValue -> string): (r: seq<FormEntry>)
    ensures |r| == if property.Arr? then |property.items| else 1
    ensures forall i :: 0 <= i < |r| ==> r[i].key == key
    ensures property.Arr? ==> forall i :: 0 <= i < |r| ==> r[i].value == EntryValue(property.items[i], stringify)
    ensures !property.Arr? ==> r == [FormEntry(key, EntryValue(property, stringify))]
  {
    var content := PropertyContent(property);
    seq(|content|, i requires 0 <= i < |content| => FormEntry(key, EntryValue(content[i], stringify)))
  }

  /** The entries for the first `|keys|` keys, in key order. */
  function EntriesForKeys(props: seq<Prop>, keys: seq<string>, stringify: JsValue -> string): seq<FormEntry>
  {
    if keys == [] then []
    else EntriesForKeys(props, keys[..|keys| - 1], stringify) + EntriesFor(keys[|keys| - 1], Get(props, keys[|keys| - 1]), stringify)
  }

  /** The entries `createFormData` builds from a plain value. */
  function FormEntries(input: JsValue, stringify: JsValue -> string): seq<FormEntry>
  {
    EntriesForKeys(Spread(input), Keys(Spread(input)), stringify)
  }

  /** Form entries come key by key: each key's entries follow those of the keys before it. */
  lemma {:induction false} EntriesForKeysAppend(props: seq<Prop>, keys: seq<string>, more: seq<string>, stringify: JsValue -> string)
    ensures EntriesForKeys(props, keys + more, stringify)
            == EntriesForKeys(props, keys, stringify) + EntriesForKeys(props, more, stringify)
    decreases |more|
  {
    if more != [] {
      var n := |more|;
      assert (keys + more)[..|keys + more| - 1] == keys + more[..n - 1];
      EntriesForKeysAppend(props, keys, more[..n - 1], stringify);
    } else {
      assert keys + more == keys;
    }
  }

  /** Each key contributes one entry per array element, or exactly one entry for a non-array value. */
  lemma {:induction false} EntriesForKeysCount(props: seq<Prop>, keys: seq<string>, stringify: JsValue -> string)
    ensures |EntriesForKeys(props, keys, stringify)| == EntryCount(props, keys)
  {
    if keys != [] {
      EntriesForKeysCount(props, keys[..|keys| - 1], stringify);
    }
  }

  /** The number of entries the keys call for. */
  function EntryCount(props: seq<Prop>, keys: seq<string>): nat
  {
    if keys == [] then 0
    else
      var p := Get(props, keys[|keys| - 1]);
      EntryCount(props, keys[..|keys| - 1]) + (if p.Arr? then |p.items| else 1)
  }

  /** The entries of one more key follow those of the keys before it. */
  lemma EntriesForNextKey(props: seq<Prop>, keys: seq<string>, i: nat, stringify: JsValue -> string)
    requires i < |keys|
    ensures EntriesForKeys(props, keys[..i + 1], stringify)
            == EntriesForKeys(props, keys[..i], stringify) + EntriesFor(keys[i], Get(props, keys[i]), stringify)
  {
    assert keys[..i + 1][..i] == keys[..i];
  }

  /** The `for` loop over one property's content: appends its entries to `formData`. */
  method AppendProperty(formData: FormData, key: string, property: JsValue, stringify: JsValue -> string)
    modifies formData
    ensures formData.entries == old(formData.entries) + EntriesFor(key, property, stringify)
  {
    var content := PropertyContent(property);
    ghost var expected := EntriesFor(key, property, stringify);
    for j := 0 to |content|
      invariant formData.entries == old(formData.entries) + expected[..j]
    {
      var formItem := content[j];
      var isFileType := formItem.BlobVal? || formItem.FileVal?;
      formData.Append(key, if isFileType then FileEntry(formItem) else TextEntry(StringifyFormItem(formItem, stringify)));
    }
    assert expected[..|content|] == expected;
  }

  /** `createFormData`: a FormData input as it is; otherwise a new FormData with each key's entries in key order. */
  method CreateFormData(input: JsValue, stringify: JsValue -> string) returns (formData: FormData)
    ensures input.FormRef? ==> formData == input.form
    ensures !input.FormRef? ==> fresh(formData) && formData.entries == FormEntries(input, stringify)
  {
    if input.FormRef? {
      return input.form;
    }
    formData := new FormData();
    var props := Spread(input);
    var keys := Keys(props);
    for i := 0 to |keys|
      invariant formData.entries == EntriesForKeys(props, keys[..i], stringify)
    {
      var key := keys[i];
      var property := Get(props, key);
      AppendProperty(formData, key, property, stringify);
      EntriesForNextKey(props, keys, i, stringify);
    }
    assert keys[..|keys|] == keys;
  }

  /** The per-call parameters of `request`: `secure`, `path`, `type`, `query`, `format`, `body` and the rest. */
  datatype FullRequestParams = FullRequestParams(
    secure: Option<bool>,
    path: string,
    contentType: Option<ContentType>,
    query: JsValue,
    format: Option<string>,
    body: JsValue,
    rest: seq<Prop>)

  /** `format || this.format || undefined`. */
  function ResponseFormat(format: Option<string>, instanceFormat: Option<string>): (r: JsValue)
    ensures format.Some? && format.value != "" ==> r == Str(format.value)
    ensures (format.None? || format.value == "") && instanceFormat.Some? && instanceFormat.value != "" ==> r == Str(instanceFormat.value)
    ensures (format.None? || format.value == "") && (instanceFormat.None? || instanceFormat.value == "") ==> r == Undefined
  {
    if format.Some? && format.value != "" then Str(format.value)
    else if instanceFormat.Some? && instanceFormat.value != "" then Str(instanceFormat.value)
    else Undefined
  }

  /** `type ? { "Content-Type": type } : {}`. */
  function ContentTypeHeader(t: Option<ContentType>): seq<Prop>
  {
    if t.Some? then [Prop("Content-Type", Str(ContentTypeValue(t.value)))] else []
  }

  /** The properties `request` writes over the merged parameters. */
  function RequestOverrides(requestParams: seq<Prop>, t: Option<ContentType>, query: JsValue,
                            responseFormat: JsValue, data: JsValue, path: string): seq<Prop>
  {
    [Prop("headers", Obj(Assign(Spread(Get(requestParams, "headers")), ContentTypeHeader(t)))),
     Prop("params", query),
     Prop("responseType", responseFormat),
     Prop("data", data),
     Prop("url", Str(path))]
  }

  /** The configuration handed to `instance.request`. */
  function RequestConfig(requestParams: seq<Prop>, t: Option<ContentType>, query: JsValue,
                         responseFormat: JsValue, data: JsValue, path: string): seq<Prop>
  {
    Assign(requestParams, RequestOverrides(requestParams, t, query, responseFormat, data, path))
  }

  /** The keys `request` sets on top of the merged parameters. */
  predicate IsRequestKey(k: string)
  {
    k == "headers" || k == "params" || k == "responseType" || k == "data" || k == "url"
  }

  /** Reading the overrides: exactly the five request keys, each with its value. */
  lemma OverridesLookup(requestParams: seq<Prop>, t: Option<ContentType>, query: JsValue,
                        responseFormat: JsValue, data: JsValue, path: string, k: string)
    ensures var o := RequestOverrides(requestParams, t, query, responseFormat, data, path);
      && (Has(o, k) <==> IsRequestKey(k))
      && Get(o, k) == if k == "headers" then Obj(Assign(Spread(Get(requestParams, "headers")), ContentTypeHeader(t)))
                      else if k == "params" then query
                      else if k == "responseType" then responseFormat
                      else if k == "data" then data
                      else if k == "url" then Str(path)
                      else Undefined
  {
    var o := RequestOverrides(requestParams, t, query, responseFormat, data, path);
    SnocLookup(o[..4], o[4], k);
    SnocLookup(o[..3], o[3], k);
    SnocLookup(o[..2], o[2], k);
    SnocLookup(o[..1], o[1], k);
    SnocLookup([], o[0], k);
    assert o == o[..4] + [o[4]];
    assert o[..4] == o[..3] + [o[3]];
    assert o[..3] == o[..2] + [o[2]];
    assert o[..2] == o[..1] + [o[1]];
    assert o[..1] == [] + [o[0]];
  }

  /**
   * The dispatched configuration: `Content-Type` is set iff a type is given and then overrides
   * the merged headers, every other header is the merged one; `params`, `responseType`, `data`
   * and `url` are the query, the response format, the body and the path; every other key is
   * the merged parameters'.
   */
  lemma RequestConfigFields(requestParams: seq<Prop>, t: Option<ContentType>, query: JsValue,
                            responseFormat: JsValue, data: JsValue, path: string, h: string, k: string)
    ensures var c := RequestConfig(requestParams, t, query, responseFormat, data, path);
      var merged := Spread(Get(requestParams, "headers"));
      && Get(c, "headers").Obj?
      && (t.Some? ==> Get(Get(c, "headers").props, "Content-Type") == Str(ContentTypeValue(t.value)))
      && (t.None? ==> Get(Get(c, "headers").props, "Content-Type") == Get(merged, "Content-Type"))
      && (h != "Content-Type" ==> Get(Get(c, "headers").props, h) == Get(merged, h))
      && Get(c, "params") == query
      && Get(c, "responseType") == responseFormat
      && Get(c, "data") == data
      && Get(c, "url") == Str(path)
      && (!IsRequestKey(k) ==> Get(c, k) == Get(requestParams, k))
  {
    var merged := Spread(Get(requestParams, "headers"));
    var o := RequestOverrides(requestParams, t, query, responseFormat, data, path);
    OverridesLookup(requestParams, t, query, responseFormat, data, path, k);
    OverridesLookup(requestParams, t, query, responseFormat, data, path, "headers");
    OverridesLookup(requestParams, t, query, responseFormat, data, path, "params");
    OverridesLookup(requestParams, t, query, responseFormat, data, path, "responseType");
    OverridesLookup(requestParams, t, query, responseFormat, data, path, "data");
    OverridesLookup(requestParams, t, query, responseFormat, data, path, "url");
    AssignGet(requestParams, o, "headers");
    AssignGet(requestParams, o, "params");
    AssignGet(requestParams, o, "responseType");
    AssignGet(requestParams, o, "data");
    AssignGet(requestParams, o, "url");
    AssignGet(requestParams, o, k);
    ContentTypeHeaderLookup(merged, t, h);
  }

  /** Adding the `Content-Type` header: it is the type's MIME string when a type is given; other headers are kept. */
  lemma ContentTypeHeaderLookup(merged: seq<Prop>, t: Option<ContentType>, h: string)
    ensures t.Some? ==> Get(Assign(merged, ContentTypeHeader(t)), "Content-Type") == Str(ContentTypeValue(t.value))
    ensures t.None? ==> Get(Assign(merged, ContentTypeHeader(t)), "Content-Type") == Get(merged, "Content-Type")
    ensures h != "Content-Type" ==> Get(Assign(merged, ContentTypeHeader(t)), h) == Get(merged, h)
  {
    var ct := ContentTypeHeader(t);
    if t.Some? {
      assert ct[..0] == [];
    }
    AssignGet(merged, ct, "Content-Type");
    AssignGet(merged, ct, h);
  }

  /** The body `request` dispatches when no FormData is built: a truthy non-string Text body is JSON-encoded. */
  function TextBody(t: Option<ContentType>, body: JsValue, stringify: JsValue -> string): (r: JsValue)
    ensures t == Some(Text) && Truthy(body) && !body.Str? ==> r == Str(stringify(body))
    ensures body.Str? || t != Some(Text) || !Truthy(body) ==> r == body
  {
    if t == Some(Text) && Truthy(body) && !body.Str? then Str(stringify(body)) else body
  }

  /** The generated client: an axios instance's defaults plus the security settings. */
  class HttpClient {
    /** `instance.defaults`, as the constructor configured them. */
    var defaults: seq<Prop>
    var securityData: JsValue
    var securityWorker: Option<JsValue -> JsValue>
    var secure: Option<bool>
    var format: Option<string>

    /** The instance is created from the remaining configuration with `baseURL` defaulting to "". */
    constructor (axiosConfig: seq<Prop>, securityWorker: Option<JsValue -> JsValue>,
                 secure: Option<bool>, format: Option<string>)
      ensures Get(defaults, "baseURL") ==
                if Truthy(Get(axiosConfig, "baseURL")) then Get(axiosConfig, "baseURL") else Str("")
      ensures forall k :: k != "baseURL" ==> Get(defaults, k) == Get(axiosConfig, k)
      ensures securityData == Null
      ensures this.securityWorker == securityWorker && this.secure == secure && this.format == format
    {
      var baseURL := Get(axiosConfig, "baseURL");
      defaults := Put(axiosConfig, "baseURL", if Truthy(baseURL) then baseURL else Str(""));
      securityData := Null;
      this.securityWorker := securityWorker;
      this.secure := secure;
      this.format := format;
      new;
      forall k | k != "baseURL"
        ensures Get(defaults, k) == Get(axiosConfig, k)
      {
        PutGet(axiosConfig, "baseURL", if Truthy(baseURL) then baseURL else Str(""), k);
      }
      PutGet(axiosConfig, "baseURL", if Truthy(baseURL) then baseURL else Str(""), "baseURL");
    }

    /** `setSecurityData`: replaces the data handed to the security worker. */
    method SetSecurityData(data: JsValue)
      modifies this
      ensures securityData == data
      ensures defaults == old(defaults) && securityWorker == old(securityWorker)
      ensures secure == old(secure) && format == old(format)
    {
      securityData := data;
    }

    /**
     * The security worker runs iff the call's `secure` flag (or else the instance's) is true and a
     * worker is set; its truthy result is merged in as `params2`, anything else as `{}`.
     */
    function SecureParams(callSecure: Option<bool>): (r: seq<Prop>)
      reads this
      ensures callSecure == Some(false) || (callSecure.None? && secure != Some(true)) || securityWorker.None? ==> r == []
      ensures (callSecure == Some(true) || (callSecure.None? && secure == Some(true))) && securityWorker.Some? ==>
        r == Spread(securityWorker.value(securityData))
    {
      var wanted := if callSecure.Some? then callSecure.value else secure == Some(true);
      if wanted && securityWorker.Some? && Truthy(securityWorker.value(securityData))
      then Spread(securityWorker.value(securityData))
      else []
    }

    /** `request`: the configuration it hands to `instance.request`, and the body it sends. */
    method Request(params: FullRequestParams, stringify: JsValue -> string) returns (config: seq<Prop>)
      ensures var requestParams := MergeRequestParams(defaults, params.rest, Some(SecureParams(params.secure)));
        var data := Get(config, "data");
        && config == RequestConfig(requestParams, params.contentType, params.query,
                                   ResponseFormat(params.format, format), data, params.path)
        && (params.contentType == Some(MultipartFormData) && Truthy(params.body) && IsObject(params.body) ==>
              if params.body.FormRef? then data == params.body
              else data.FormRef? && fresh(data.form) && data.form.entries == FormEntries(params.body, stringify))
        && (!(params.contentType == Some(MultipartFormData) && Truthy(params.body) && IsObject(params.body)) ==>
              data == TextBody(params.contentType, params.body, stringify))
    {
      var secureParams := SecureParams(params.secure);
      var requestParams := MergeRequestParams(defaults, params.rest, Some(secureParams));
      var responseFormat := ResponseFormat(params.format, format);
      var body := params.body;
      var t := params.contentType;
      if t == Some(MultipartFormData) && Truthy(body) && IsObject(body) {
        var formData := CreateFormData(body, stringify);
        body := FormRef(formData);
      }
      if t == Some(Text) && Truthy(body) && !body.Str? {
        body := Str(stringify(body));
      }
      config := RequestConfig(requestParams, t, params.query, responseFormat, body, params.path);
      RequestConfigFields(requestParams, t, params.query, responseFormat, body, params.path, "", "");
    }
  }
}
