/** The annual statement store (ai-service/app/services/datasources/s3_statements.py):
    the choice of the statement PDF to hand back for a client.  The bucket is an
    input: the listing of a prefix and the download of a key, each either the
    result or the ClientError the call raised, and base64 encoding is a parameter. */
module S3Statements {
  import opened Values

  /** `MAX_PDF_SIZE`: 4 MiB. */
  const MaxPdfSize: int := 4 * 1024 * 1024

  /** One entry of the listing's "Contents". */
  datatype S3Object = S3Object(key: string, size: int)

  /** `{filename, pdf_base64, media_type}` */
  datatype Statement = Statement(filename: string, pdfBase64: string, mediaType: string)

  /** Every key is at least the next one: the order of `sort(key=…, reverse=True)`. */
  predicate SortedDescending(s: seq<S3Object>)
  {
    forall p, q :: 0 <= p < q < |s| ==> !StrLt(s[p].key, s[q].key)
  }

  /** `contents.sort(key=lambda obj: obj["Key"], reverse=True)`, in place. */
  method SortByKeyDescending(a: array<S3Object>)
    modifies a
    ensures SortedDescending(a[..])
    ensures multiset(a[..]) == multiset(old(a[..]))
  {
    for i := 0 to a.Length
      invariant forall p, q :: 0 <= p < q < i ==> !StrLt(a[p].key, a[q].key)
      invariant multiset(a[..]) == multiset(old(a[..]))
    {
      Insert(a, i);
    }
  }

  /** One step of the insertion sort: `a[i]` moves down past every smaller key, so
      that `a[..i + 1]` is sorted. */
  method Insert(a: array<S3Object>, i: nat)
    requires i < a.Length
    requires forall p, q :: 0 <= p < q < i ==> !StrLt(a[p].key, a[q].key)
    modifies a
    ensures forall p, q :: 0 <= p < q <= i ==> !StrLt(a[p].key, a[q].key)
    ensures multiset(a[..]) == multiset(old(a[..]))
  {
    var j := i;
    while j > 0 && StrLt(a[j - 1].key, a[j].key)
      invariant 0 <= j <= i
      invariant forall p, q :: 0 <= p < q <= i && q != j ==> !StrLt(a[p].key, a[q].key)
      invariant multiset(a[..]) == multiset(old(a[..]))
    {
      StrLtAsymmetric(a[j - 1].key, a[j].key);
      a[j - 1], a[j] := a[j], a[j - 1];
      j := j - 1;
    }
    forall p | 0 <= p < j - 1
      ensures !StrLt(a[p].key, a[j].key)
    {
      StrLeTransitive(a[p].key, a[j - 1].key, a[j].key);
    }
  }

  /** `key.rsplit("/", 1)[-1]`: what follows the last "/", or the whole key. */
  function LastSegment(key: string): (r: string)
    ensures '/' !in r && EndsWith(key, r)
    ensures '/' !in key ==> r == key
    ensures '/' in key ==> |r| < |key| && key[|key| - |r| - 1] == '/'
  {
    if key == [] then []
    else if key[|key| - 1] == '/' then []
    else
      var r := LastSegment(key[..|key| - 1]);
      LastSegmentStep(key, r);
      r + [key[|key| - 1]]
  }

  /** The segment grows by the key's last character when that is not a "/". */
  lemma LastSegmentStep(key: string, r: string)
    requires key != [] && key[|key| - 1] != '/'
    requires '/' !in r && EndsWith(key[..|key| - 1], r)
    requires '/' !in key[..|key| - 1] ==> r == key[..|key| - 1]
    requires '/' in key[..|key| - 1] ==> |r| < |key| - 1 && key[..|key| - 1][|key| - 1 - |r| - 1] == '/'
    ensures var r' := r + [key[|key| - 1]];
      '/' !in r' && EndsWith(key, r') &&
      ('/' !in key ==> r' == key) &&
      ('/' in key ==> |r'| < |key| && key[|key| - |r'| - 1] == '/')
  {
    var init := key[..|key| - 1];
    assert key == init + [key[|key| - 1]];
    assert key[|key| - 1 - |r|..] == init[|init| - |r|..] + [key[|key| - 1]];
    assert '/' in key ==> '/' in init;
  }

  /** The file name of a key made of a directory and a name is that name. */
  lemma {:induction false} LastSegmentOfPath(dir: string, name: string)
    requires '/' !in name
    ensures LastSegment(dir + "/" + name) == name
  {
    var key := dir + "/" + name;
    if name != [] {
      var init := name[..|name| - 1];
      assert key[..|key| - 1] == dir + "/" + init;
      LastSegmentOfPath(dir, init);
      assert name == init + [name[|name| - 1]];
    } else {
      assert key[|key| - 1] == '/';
    }
  }

  /** The statement made of a downloaded object. */
  function StatementOf(o: S3Object, pdf: seq<bv8>, base64: seq<bv8> -> string): (st: Statement)
    ensures st.mediaType == "application/pdf" && '/' !in st.filename && EndsWith(o.key, st.filename)
  {
    Statement(LastSegment(o.key), base64(pdf), "application/pdf")
  }

  /** An object is handed back only when it is within the size limit and downloads. */
  predicate Eligible(o: S3Object, download: string -> Result<seq<bv8>>)
  {
    o.size <= MaxPdfSize && download(o.key).Ok?
  }

  /** `statements/<client_id>/` */
  function Prefix(clientId: string): string
  {
    "statements/" + clientId + "/"
  }

  /** No listed object can be handed back. */
  ghost predicate NoneEligible(s: seq<S3Object>, download: string -> Result<seq<bv8>>)
  {
    forall o :: o in s ==> !Eligible(o, download)
  }

  /** `o` is listed, eligible, and no eligible object has a greater key. */
  ghost predicate IsLatest(o: S3Object, s: seq<S3Object>, download: string -> Result<seq<bv8>>)
  {
    o in s && Eligible(o, download) && forall c :: c in s && StrLt(o.key, c.key) ==> !Eligible(c, download)
  }

  /** Both predicates depend only on which objects are listed, not on their order. */
  lemma SameObjects(s: seq<S3Object>, t: seq<S3Object>, download: string -> Result<seq<bv8>>)
    requires multiset(s) == multiset(t)
    ensures NoneEligible(s, download) == NoneEligible(t, download)
    ensures forall o :: IsLatest(o, s, download) == IsLatest(o, t, download)
  {
    assert forall o :: o in s <==> o in multiset(t);
  }

  /** The download loop over the sorted candidates: the first eligible one, skipping
      those too large and those whose download fails. */
  method PickFirst(a: array<S3Object>, download: string -> Result<seq<bv8>>, base64: seq<bv8> -> string)
    returns (r: Option<Statement>)
    requires SortedDescending(a[..])
    ensures r.None? <==> NoneEligible(a[..], download)
    ensures r.Some? ==> exists o :: IsLatest(o, a[..], download) && r.value == StatementOf(o, download(o.key).value, base64)
  {
    for i := 0 to a.Length
      invariant forall k :: 0 <= k < i ==> !Eligible(a[k], download)
    {
      var obj := a[i];
      if obj.size > MaxPdfSize {
        continue;
      }
      var s3Resp := download(obj.key);
      if s3Resp.Ok? {
        r := Some(StatementOf(obj, s3Resp.value, base64));
        forall c | c in a[..] && StrLt(obj.key, c.key)
          ensures !Eligible(c, download)
        {
          var k :| 0 <= k < a.Length && a[k] == c;
          if k == i {
            StrLtIrreflexive(obj.key);
          }
        }
        assert IsLatest(obj, a[..], download);
        return;
      }
    }
    r := None;
  }

  /** `S3StatementStore.fetch_latest_statement`: None when the listing fails or is
      empty or when no object is eligible; otherwise the statement of the eligible
      object with the greatest key. */
  method FetchLatestStatement(clientId: string, list: string -> Result<seq<S3Object>>,
                              download: string -> Result<seq<bv8>>, base64: seq<bv8> -> string)
    returns (r: Option<Statement>)
    ensures r.None? <==> (list(Prefix(clientId)).Failed? || NoneEligible(list(Prefix(clientId)).value, download))
    ensures r.Some? ==> exists o :: (IsLatest(o, list(Prefix(clientId)).value, download) &&
      r.value == StatementOf(o, download(o.key).value, base64))
  {
    var resp := list(Prefix(clientId));
    if resp.Failed? {
      return None;
    }
    r := Latest(resp.value, download, base64);
  }

  /** The listed objects, newest key first, and the first of them that is eligible. */
  method Latest(contents: seq<S3Object>, download: string -> Result<seq<bv8>>, base64: seq<bv8> -> string)
    returns (r: Option<Statement>)
    ensures r.None? <==> NoneEligible(contents, download)
    ensures r.Some? ==> exists o :: IsLatest(o, contents, download) && r.value == StatementOf(o, download(o.key).value, base64)
  {
    if contents == [] {
      return None;
    }
    var a := new S3Object[|contents|](k requires 0 <= k < |contents| => contents[k]);
    assert a[..] == contents;
    SortByKeyDescending(a);
    r := PickFirst(a, download, base64);
    SameObjects(contents, a[..], download);
  }

  /** The statement as the dict `query` returns. */
  function StatementDict(st: Statement): (d: seq<(string, Value)>)
    ensures d != []
  {
    [("filename", Str(st.filename)), ("pdf_base64", Str(st.pdfBase64)), ("media_type", Str(st.mediaType))]
  }

  /** `S3StatementStore.query`: the latest statement of `params["client_id"]`, or `{}`
      when there is none. */
  method Query(params: seq<(string, Value)>, list: string -> Result<seq<S3Object>>,
               download: string -> Result<seq<bv8>>, base64: seq<bv8> -> string, prims: Primitives)
    returns (d: seq<(string, Value)>)
    ensures var clientId := PyStr(GetOr(params, "client_id", Str("")), prims);
      d == [] <==> (list(Prefix(clientId)).Failed? || NoneEligible(list(Prefix(clientId)).value, download))
    ensures d != [] ==> (Get(d, "media_type") == Some(Str("application/pdf")) &&
      Get(d, "filename").Some? && Get(d, "filename").value.Str? && '/' !in Get(d, "filename").value.s)
    ensures var clientId := PyStr(GetOr(params, "client_id", Str("")), prims);
      d != [] ==>
        exists o :: IsLatest(o, list(Prefix(clientId)).value, download) && d == StatementDict(StatementOf(o, download(o.key).value, base64))
  {
    var clientId := PyStr(GetOr(params, "client_id", Str("")), prims);
    var result := FetchLatestStatement(clientId, list, download, base64);
    match result
    case None =>
      d := [];
    case Some(st) =>
      d := StatementDict(st);
      ThreeKeys("filename", Str(st.filename), "pdf_base64", Str(st.pdfBase64), "media_type", Str(st.mediaType));
  }
}
