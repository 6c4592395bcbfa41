/** The authenticating transport: before handing a request on, it sets the tenant
    header, sets basic auth when a token is configured, and appends the injected
    headers. */
module Transport {
  import opened Http

  const OrgIDHeader := "X-Scope-OrgID"
  const AuthorizationHeader := "Authorization"

  /** The value `SetBasicAuth` puts under `Authorization`. The base64 encoding of
      `user:password` is not modelled: the pair is kept as it is. */
  function BasicAuth(user: string, password: string): string
  {
    "Basic " + user + ":" + password
  }

  /** The keys under which `Add` creates an entry: those with at least one value. */
  function NonEmptyKeys(inject: Header): set<string>
  {
    set k | k in inject && inject[k] != []
  }

  /** Every injected value appended, in order, after those already under its key. */
  function Injected(h: Header, inject: Header): (r: Header)
    ensures forall k :: Values(r, k) == Values(h, k) + Values(inject, k)
    ensures forall k :: k in r <==> k in h || Values(inject, k) != []
  {
    map k | k in h.Keys + NonEmptyKeys(inject) :: Values(h, k) + Values(inject, k)
  }

  /** The header `RoundTrip` leaves on a request that arrived with header `h`. */
  function ShapedHeader(h: Header, instanceID: string, token: string, inject: Header): (r: Header)
    ensures Values(r, OrgIDHeader) == [instanceID] + Values(inject, OrgIDHeader)
    ensures token != "" ==>
      Values(r, AuthorizationHeader) == [BasicAuth(instanceID, token)] + Values(inject, AuthorizationHeader)
    ensures token == "" ==>
      Values(r, AuthorizationHeader) == Values(h, AuthorizationHeader) + Values(inject, AuthorizationHeader)
    ensures forall k :: k != OrgIDHeader && k != AuthorizationHeader ==>
      Values(r, k) == Values(h, k) + Values(inject, k)
    ensures forall k :: k in r <==>
      k in h || k == OrgIDHeader || (k == AuthorizationHeader && token != "") || Values(inject, k) != []
  {
    var scoped := SetHeader(h, OrgIDHeader, instanceID);
    var authed := if token != "" then SetHeader(scoped, AuthorizationHeader, BasicAuth(instanceID, token)) else scoped;
    Injected(authed, inject)
  }

  /** With no token and nothing injected or present under `Authorization`, the
      request goes out without credentials. */
  lemma NoTokenNoAuthorization(h: Header, instanceID: string, inject: Header)
    requires AuthorizationHeader !in h && Values(inject, AuthorizationHeader) == []
    ensures AuthorizationHeader !in ShapedHeader(h, instanceID, "", inject)
  {
  }

  /** `Add` called once per value of `values`, in order. */
  function AddAll(h: Header, key: string, values: seq<string>): (r: Header)
    ensures Values(r, key) == Values(h, key) + values
    ensures forall k :: k != key ==> Values(r, k) == Values(h, k)
    ensures forall k :: k in r <==> k in h || (k == key && values != [])
  {
    if values == [] then h
    else AddHeader(AddAll(h, key, values[..|values| - 1]), key, values[|values| - 1])
  }

  /** The injected headers whose keys have been visited so far. */
  function Visited(inject: Header, keys: set<string>): (r: Header)
    ensures forall k :: Values(r, k) == if k in keys then Values(inject, k) else []
  {
    map k | k in inject && k in keys :: inject[k]
  }

  lemma VisitOneMoreAtKey(base: Header, inject: Header, keys: set<string>, key: string)
    requires key in inject && key !in keys
    ensures Values(Injected(base, Visited(inject, keys + {key})), key) ==
            Values(AddAll(Injected(base, Visited(inject, keys)), key, inject[key]), key)
  {
    var before := Injected(base, Visited(inject, keys));
    assert Values(before, key) == Values(base, key);
  }

  lemma VisitOneMoreAtOther(base: Header, inject: Header, keys: set<string>, key: string, k: string)
    requires key in inject && key !in keys && k != key
    ensures Values(Injected(base, Visited(inject, keys + {key})), k) ==
            Values(AddAll(Injected(base, Visited(inject, keys)), key, inject[key]), k)
  {
    assert Values(Visited(inject, keys + {key}), k) == Values(Visited(inject, keys), k);
  }

  lemma MoveKey(all: set<string>, pending: set<string>, key: string)
    requires pending <= all && key in pending
    ensures (all - pending) + {key} == all - (pending - {key})
  {
  }

  lemma VisitedNone(base: Header, inject: Header)
    ensures Injected(base, Visited(inject, {})) == base
  {
    HeaderExtensionality(base, Injected(base, Visited(inject, {})));
  }

  lemma VisitedAll(inject: Header)
    ensures Visited(inject, inject.Keys) == inject
  {
    HeaderExtensionality(Visited(inject, inject.Keys), inject);
  }

  /** Visiting one more key appends that key's values and nothing else. */
  lemma VisitOneMore(base: Header, inject: Header, keys: set<string>, key: string)
    requires key in inject && key !in keys
    ensures Injected(base, Visited(inject, keys + {key})) ==
            AddAll(Injected(base, Visited(inject, keys)), key, inject[key])
  {
    var after := Injected(base, Visited(inject, keys + {key}));
    var stepped := AddAll(Injected(base, Visited(inject, keys)), key, inject[key]);
    forall k ensures Values(after, k) == Values(stepped, k) {
      if k == key { VisitOneMoreAtKey(base, inject, keys, key); } else { VisitOneMoreAtOther(base, inject, keys, key, k); }
    }
    forall k ensures k in after <==> k in stepped {
      if k == key {
        assert Values(after, k) == Values(base, k) + inject[key];
      }
    }
    HeaderExtensionality(after, stepped);
  }

  /** `roundTripper`: the tenant, the token and the headers chosen by `New`. */
  class RoundTripper {
    const instanceID: string
    const token: string
    var injectHeaders: Header

    constructor (instanceID: string, token: string)
      ensures this.instanceID == instanceID && this.token == token && injectHeaders == map[]
    {
      this.instanceID := instanceID;
      this.token := token;
      injectHeaders := map[];
    }

    /** Shapes the request's header in place, then returns what the next transport
        answers (`reply`) unchanged. */
    method RoundTrip(req: Request, reply: Exchange) returns (res: Exchange)
      modifies req`Header
      ensures req.Header == ShapedHeader(old(req.Header), instanceID, token, injectHeaders)
      ensures res == reply
    {
      req.Header := SetHeader(req.Header, OrgIDHeader, instanceID);
      if token != "" {
        req.Header := SetHeader(req.Header, AuthorizationHeader, BasicAuth(instanceID, token));
      }
      AppendInjected(req);
      res := reply;
    }

    /** The loop over `injectHeaders`: its keys are visited in an arbitrary order,
        as Go's map iteration visits them. */
    method AppendInjected(req: Request)
      modifies req`Header
      ensures req.Header == Injected(old(req.Header), injectHeaders)
    {
      ghost var base := req.Header;
      VisitedNone(base, injectHeaders);
      var pending := injectHeaders.Keys;
      while pending != {}
        invariant pending <= injectHeaders.Keys
        invariant req.Header == Injected(base, Visited(injectHeaders, injectHeaders.Keys - pending))
        decreases pending
      {
        var key :| key in pending;
        AddValues(req, key, injectHeaders[key]);
        VisitOneMore(base, injectHeaders, injectHeaders.Keys - pending, key);
        MoveKey(injectHeaders.Keys, pending, key);
        pending := pending - {key};
      }
      VisitedAll(injectHeaders);
    }

    /** The inner loop: `Add` for each value of one injected key. */
    method AddValues(req: Request, key: string, values: seq<string>)
      modifies req`Header
      ensures req.Header == AddAll(old(req.Header), key, values)
    {
      for i := 0 to |values|
        invariant req.Header == AddAll(old(req.Header), key, values[..i])
      {
        assert values[..i + 1][..i] == values[..i];
        req.Header := AddHeader(req.Header, key, values[i]);
      }
      assert values[..|values|] == values;
    }
  }
}
