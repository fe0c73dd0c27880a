/**
 The cache key of app/services/cache.py: five fields joined by colons, hashed,
 with a prefix for the streaming slot.  The digests are arbitrary functions of
 a fixed output length.
 */
module CacheKey {
  import opened Text

  datatype Fields = Fields(tenant: string, model: string, prompt: string, temperature: string, tools: string)

  function Raw(f: Fields): string {
    f.tenant + ":" + f.model + ":" + f.prompt + ":" + f.temperature + ":" + f.tools
  }

  // The fields of fixed alphabet: hex digests, a formatted number, a tenant
  // prefix.  The model id is not among them.
  predicate ColonFree(f: Fields) {
    ':' !in f.tenant && ':' !in f.prompt && ':' !in f.temperature && ':' !in f.tools
  }

  // Two texts split at their first colon.
  lemma {:induction false} FirstColon(a: string, x: string, b: string, y: string)
    requires ':' !in a && ':' !in b && a + ":" + x == b + ":" + y
    ensures a == b && x == y
  {
    Cut(a, ':', x);
    Cut(b, ':', y);
  }

  // Two texts split at their last colon.
  lemma {:induction false} LastColon(x: string, a: string, y: string, b: string)
    requires ':' !in a && ':' !in b && x + ":" + a == y + ":" + b
    ensures a == b && x == y
  {
    LastColonAt(x, a, |y|);
    LastColonAt(y, b, |x|);
    assert (x + ":" + a)[..|x|] == x && (y + ":" + b)[..|y|] == y;
    assert (x + ":" + a)[|x| + 1..] == a && (y + ":" + b)[|y| + 1..] == b;
  }

  lemma {:induction false} LastColonAt(x: string, a: string, i: nat)
    requires ':' !in a && i < |x + ":" + a| && (x + ":" + a)[i] == ':'
    ensures i <= |x|
  {
    var s := x + ":" + a;
    forall k | |x| < k < |s| ensures s[k] != ':' {
      assert s[k] == a[k - |x| - 1];
    }
  }

  // Colons in model ids do not make two different requests share a raw key.
  lemma {:induction false} RawKeyIsInjective(f: Fields, g: Fields)
    requires ColonFree(f) && ColonFree(g) && Raw(f) == Raw(g)
    ensures f == g
  {
    var f3, g3 := f.tenant + ":" + f.model, g.tenant + ":" + g.model;
    var f2, g2 := f3 + ":" + f.prompt, g3 + ":" + g.prompt;
    var f1, g1 := f2 + ":" + f.temperature, g2 + ":" + g.temperature;
    LastColon(f1, f.tools, g1, g.tools);
    LastColon(f2, f.temperature, g2, g.temperature);
    LastColon(f3, f.prompt, g3, g.prompt);
    FirstColon(f.tenant, f.model, g.tenant, g.model);
  }

  // Without the side condition the encoding is ambiguous.
  lemma {:induction false} ColonsInTheTenantCollide()
    ensures Fields("a:b", "c", "", "", "") != Fields("a", "b:c", "", "", "")
    ensures Raw(Fields("a:b", "c", "", "", "")) == Raw(Fields("a", "b:c", "", "", ""))
  {
  }

  // ---------------------------------------------------------------- requests and slots

  // A request as far as its key goes, with the digests and the number format
  // already applied.
  datatype Request = Request(keyHash: string, model: string, prompt: string, temperature: string, tools: string)

  // Only eight characters of the caller's key hash enter the key.
  function Tenant(keyHash: string): string {
    var t := if keyHash == "" then "panel" else keyHash;
    if |t| <= 8 then t else t[..8]
  }

  // The tenant is the first eight characters of the key hash, and "panel"
  // without one.
  lemma {:induction false} TenantInPlainTerms(keyHash: string)
    ensures keyHash == "" ==> Tenant(keyHash) == "panel"
    ensures 0 < |keyHash| ==> Tenant(keyHash) <= keyHash
    ensures 0 < |keyHash| < 8 ==> |Tenant(keyHash)| == |keyHash|
    ensures 8 <= |keyHash| ==> |Tenant(keyHash)| == 8
  {
  }

  function FieldsOf(r: Request): Fields {
    Fields(Tenant(r.keyHash), r.model, r.prompt, r.temperature, r.tools)
  }

  // The five fields stand in this order.
  lemma {:induction false} RawKeyOfRequest(r: Request)
    requires |r.keyHash| >= 8
    ensures Raw(FieldsOf(r)) ==
            r.keyHash[..8] + ":" + r.model + ":" + r.prompt + ":" + r.temperature + ":" + r.tools
  {
  }

  predicate WellFormed(r: Request) {
    ':' !in r.keyHash && ':' !in r.prompt && ':' !in r.temperature && ':' !in r.tools
  }

  // The two slots of a request.
  function Slot(hash: string -> string, r: Request, stream: bool): string {
    if stream then "stream:" + hash(Raw(FieldsOf(r))) else hash(Raw(FieldsOf(r)))
  }

  // With a collision-free digest of fixed length, two requests share a slot
  // exactly when they are of the same kind and agree on the tenant prefix, the
  // model id and the three digested fields.
  lemma {:induction false} SlotsCoincideIff(
    hash: string -> string, length: nat, r: Request, q: Request, stream: bool, stream': bool)
    requires WellFormed(r) && WellFormed(q)
    requires |hash(Raw(FieldsOf(r)))| == length == |hash(Raw(FieldsOf(q)))|
    requires hash(Raw(FieldsOf(r))) == hash(Raw(FieldsOf(q))) ==> Raw(FieldsOf(r)) == Raw(FieldsOf(q))
    ensures Slot(hash, r, stream) == Slot(hash, q, stream') <==>
            stream == stream' && Tenant(r.keyHash) == Tenant(q.keyHash) && r.model == q.model
            && r.prompt == q.prompt && r.temperature == q.temperature && r.tools == q.tools
  {
    var a, b := hash(Raw(FieldsOf(r))), hash(Raw(FieldsOf(q)));
    assert |Slot(hash, r, stream)| == length + if stream then 7 else 0;
    assert |Slot(hash, q, stream')| == length + if stream' then 7 else 0;
    if Slot(hash, r, stream) == Slot(hash, q, stream') {
      assert stream ==> ("stream:" + a)[7..] == a && ("stream:" + b)[7..] == b;
      assert ColonFree(FieldsOf(r)) && ColonFree(FieldsOf(q));
      RawKeyIsInjective(FieldsOf(r), FieldsOf(q));
    }
  }
}
