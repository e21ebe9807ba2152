/** The request router of a read-only registry mirror that serves one fixed upstream
    image for every tag. A request is refused, answered locally, ignored or turned into
    the URL of the upstream resource to forward it to. Manifest requests are pinned to
    the upstream's own identifier unless they name a digest that belongs to the upstream
    image (its own manifest or a child of its index); every other resource keeps the
    identifier the client asked for. */
module Registry {
  import opened Wrappers
  import opened Strings
  import opened Digests
  import opened Errors

  const STATUS_OK := 200
  const DIGEST_PREFIX := "sha256:"
  const DOCKER_MANIFEST_LIST := "application/vnd.docker.distribution.manifest.list.v2+json"
  const OCI_IMAGE_INDEX := "application/vnd.oci.image.index.v1+json"
  const API_VERSION_HEADER := "Docker-Distribution-API-Version"
  const API_VERSION := "registry/2.0"

  /** The configured upstream image reference, fixed for the life of the process.
      `identifier` is its tag, or its digest text when it is pinned by digest. */
  datatype Reference = Reference(scheme: string, registry: string, repository: string, identifier: string)

  /** The outcome of the one GET of the upstream manifest that membership resolution
      may issue: a failure before a response arrived, or the response as seen by the
      resolver (status, `Docker-Content-Digest` and `Content-Type` headers, with "" for
      an absent header, and the body read as an index: its children's digests, or the
      parser's error). */
  datatype ManifestFetch =
    | TransportFailed(reason: string)
    | RequestFailed(reason: string)
    | FetchFailed(reason: string)
    | Fetched(status: nat, digestHeader: string, contentType: string, index: Result<seq<Digest>>)

  /** `scheme://registry/v2/repository/` of the upstream. */
  function UpstreamBase(ref: Reference): string {
    ref.scheme + "://" + ref.registry + "/v2/" + ref.repository + "/"
  }

  /** The upstream URL of resource `kind/identifier`. */
  function UpstreamURL(ref: Reference, kind: string, identifier: string): string {
    UpstreamBase(ref) + kind + "/" + identifier
  }

  predicate IsIndexMediaType(contentType: string) {
    contentType == DOCKER_MANIFEST_LIST || contentType == OCI_IMAGE_INDEX
  }

  /** The upstream is pinned by a digest rather than a tag. */
  predicate PinsDigest(ref: Reference) {
    HasPrefix(ref.identifier, DIGEST_PREFIX)
  }

  /** The membership answer the fast path gives without any network call, if any:
      an error for a malformed pinned digest, true when it equals `h`. */
  function FastPath(ref: Reference, h: Digest): Option<Result<bool>> {
    if !PinsDigest(ref) then None
    else match ParseDigest(ref.identifier)
      case Failure(e) => Some(Failure("parsing digest: " + e))
      case Success(pinned) => if pinned == h then Some(Success(true)) else None
  }

  /** The URL membership resolution would fetch: none when the fast path answers. */
  function MembershipFetch(ref: Reference, h: Digest): Option<string> {
    if FastPath(ref, h).Some? then None else Some(UpstreamURL(ref, "manifests", ref.identifier))
  }

  /** Whether `h` is part of the upstream image: its pinned digest, the digest the
      upstream reports for its manifest, or the digest of a child listed directly in
      its index (one level only, and only for index media types). */
  function Membership(ref: Reference, h: Digest, fetch: ManifestFetch): Result<bool> {
    if FastPath(ref, h).Some? then FastPath(ref, h).value
    else match fetch
      case TransportFailed(reason) => Failure("creating transport: " + reason)
      case RequestFailed(reason) => Failure("creating request: " + reason)
      case FetchFailed(reason) => Failure("fetching manifest: " + reason)
      case Fetched(status, digestHeader, contentType, index) =>
        if status != STATUS_OK then Failure("fetching manifest: unexpected status code " + NatToString(status))
        else match ParseDigest(digestHeader)
          case Failure(e) => Failure("parsing digest: " + e)
          case Success(top) =>
            if top == h then Success(true)
            else if !IsIndexMediaType(contentType) then Success(false)
            else match index
              case Failure(e) => Failure("parsing index manifest: " + e)
              case Success(children) => Success(h in children)
  }

  /** Resolves membership as the mirror does, scanning the index children one by one
      and stopping at the first match; also returns the URL of the manifest it would
      fetch, none when the pinned digest answers without the network. */
  method InManifest(ref: Reference, h: Digest, fetch: ManifestFetch)
    returns (found: Result<bool>, requested: Option<string>)
    ensures found == Membership(ref, h, fetch)
    ensures requested == MembershipFetch(ref, h)
  {
    requested := None;
    if HasPrefix(ref.identifier, DIGEST_PREFIX) {
      var pinned := ParseDigest(ref.identifier);
      if pinned.Failure? {
        return Failure("parsing digest: " + pinned.error), requested;
      }
      if pinned.value == h {
        return Success(true), requested;
      }
    }
    requested := Some(UpstreamURL(ref, "manifests", ref.identifier));
    match fetch {
      case TransportFailed(reason) =>
        return Failure("creating transport: " + reason), requested;
      case RequestFailed(reason) =>
        return Failure("creating request: " + reason), requested;
      case FetchFailed(reason) =>
        return Failure("fetching manifest: " + reason), requested;
      case Fetched(status, digestHeader, contentType, index) =>
        if status != STATUS_OK {
          return Failure("fetching manifest: unexpected status code " + NatToString(status)), requested;
        }
        var top := ParseDigest(digestHeader);
        if top.Failure? {
          return Failure("parsing digest: " + top.error), requested;
        }
        if top.value == h {
          return Success(true), requested;
        }
        if contentType == DOCKER_MANIFEST_LIST || contentType == OCI_IMAGE_INDEX {
          if index.Failure? {
            return Failure("parsing index manifest: " + index.error), requested;
          }
          var children := index.value;
          var i := 0;
          while i < |children|
            invariant 0 <= i <= |children|
            invariant h !in children[..i]
          {
            if children[i] == h {
              return Success(true), requested;
            }
            assert children[..i + 1] == children[..i] + [children[i]];
            i := i + 1;
          }
          assert children[..i] == children;
        }
        return Success(false), requested;
    }
  }

  /** The path asks for a manifest by something that looks like a digest: the only
      case in which the rewriter consults membership, and so the upstream. */
  predicate AsksForDigestManifest(path: string) {
    var parts := Split(path, '/');
    |parts| >= 2 && parts[|parts| - 2] == "manifests" && HasPrefix(parts[|parts| - 1], DIGEST_PREFIX)
  }

  /** The upstream URL a request path is forwarded to. The last two path segments are
      the resource kind and its identifier. The URL is always under the upstream's own
      registry and repository, and only a digest manifest request can fail. */
  function MakeURL(ref: Reference, path: string, fetch: ManifestFetch): (r: Result<string>)
    requires |Split(path, '/')| >= 2
    ensures r.Success? ==> HasPrefix(r.value, UpstreamBase(ref))
    ensures r.Failure? ==> AsksForDigestManifest(path)
  {
    var parts := Split(path, '/');
    var n := |parts|;
    if parts[n - 2] == "manifests" then
      var identifier := parts[n - 1];
      if HasPrefix(identifier, DIGEST_PREFIX) then
        match ParseDigest(identifier)
        case Failure(e) => Failure("parsing digest: " + e)
        case Success(h) =>
          match Membership(ref, h, fetch)
          case Failure(e) => Failure("comparing digests: " + e)
          case Success(found) =>
            if found then Success(UpstreamURL(ref, "manifests", DigestString(h)))
            else Success(UpstreamURL(ref, "manifests", ref.identifier))
      else Success(UpstreamURL(ref, "manifests", ref.identifier))
    else
      Success(UpstreamBase(ref) + Join(parts[n - 2..], '/'))
  }

  /** The request path of resource `kind/identifier` in `repository`. Its last two
      segments are the kind and the identifier whatever the repository looks like. */
  function RequestPath(repository: string, kind: string, identifier: string): (path: string)
    requires '/' !in kind && '/' !in identifier
    ensures HasPrefix(path, "/v2/")
    ensures var parts := Split(path, '/');
      |parts| >= 2 && parts[|parts| - 2] == kind && parts[|parts| - 1] == identifier
  {
    var head := "/v2/" + repository;
    SplitAround(head + "/" + kind, '/', identifier);
    SplitAround(head, '/', kind);
    SplitWithoutSeparator(kind, '/');
    SplitWithoutSeparator(identifier, '/');
    assert head + "/" + kind + "/" + identifier == (head + ['/'] + kind) + ['/'] + identifier;
    head + "/" + kind + "/" + identifier
  }

  /** Whether the path addresses a blob; a path without a separator does not. */
  function IsBlobs(path: string): bool {
    var parts := Split(path, '/');
    |parts| >= 2 && parts[|parts| - 2] == "blobs"
  }

  /** What the handler decides before any proxying. */
  datatype Decision =
    | Refuse(err: Error)
    | Probe(header: string, value: string)
    | Ignore
    | Proxy(url: string, copyBody: bool)

  /** Classifies a request: refuse writes, answer the version probe, ignore paths
      outside `/v2/`, and forward the rest to the rewritten URL, copying the response
      body back unless the request is for a blob. */
  function Dispatch(ref: Reference, verb: string, path: string, fetch: ManifestFetch): (d: Decision)
    ensures d.Proxy? ==> (verb == "GET" || verb == "HEAD") && HasPrefix(path, "/v2/")
    ensures d.Proxy? ==> HasPrefix(d.url, UpstreamBase(ref)) && d.copyBody == !IsBlobs(path)
    ensures d.Refuse? ==> d.err == ERR_READ_ONLY || (d.err.status == STATUS_INTERNAL_SERVER_ERROR && AsksForDigestManifest(path))
  {
    if verb != "GET" && verb != "HEAD" then Refuse(ERR_READ_ONLY)
    else if path == "/v2/" || path == "/v2" then Probe(API_VERSION_HEADER, API_VERSION)
    else if !HasPrefix(path, "/v2/") then Ignore
    else
      assert path == [] + ['/'] + path[1..];
      SplitAround([], '/', path[1..]);
      match MakeURL(ref, path, fetch)
      case Failure(e) => Refuse(NewError(Opaque("making url: " + e)))
      case Success(url) => Proxy(url, !IsBlobs(path))
  }

  /** How forwarding a request to the upstream went: the authenticated transport
      could not be built, the round trip failed, or the upstream responded (its
      response is then relayed, which is not modelled). */
  datatype ProxyOutcome =
    | TransportError(reason: string)
    | RoundTripError(reason: string)
    | Responded

  /** The error the handler hands to the response writer: the classification's
      refusal, or the failure of forwarding a request it decided to proxy. */
  function Returned(d: Decision, proxy: ProxyOutcome): Option<Failure> {
    match d
    case Refuse(e) => Some(Structured(e))
    case Proxy(url, _) =>
      (match proxy
       case TransportError(r) => Some(Structured(NewError(Opaque("creating transport: " + r))))
       case RoundTripError(r) => Some(Structured(NewError(Opaque("fetching \"" + url + "\": " + r))))
       case Responded => None)
    case _ => None
  }

  /** A request the handler forwards. */
  predicate IsProxied(ref: Reference, verb: string, path: string, fetch: ManifestFetch) {
    Dispatch(ref, verb, path, fetch).Proxy?
  }

  /** The error response written for a request, if any: only writes are answered
      with 405; every other error response is a 500, reporting either why the URL of
      a manifest-by-digest request could not be made or why forwarding a proxied
      request failed. A request the upstream answered gets no error response. */
  function ServeHTTP(ref: Reference, verb: string, path: string, fetch: ManifestFetch,
                     proxy: ProxyOutcome): (w: Option<Written>)
    ensures w.Some? ==> w.value.status == STATUS_METHOD_NOT_ALLOWED || w.value.status == STATUS_INTERNAL_SERVER_ERROR
    ensures (w.Some? && w.value.status == STATUS_METHOD_NOT_ALLOWED) <==> (verb != "GET" && verb != "HEAD")
    ensures w.Some? && w.value.status == STATUS_INTERNAL_SERVER_ERROR ==>
      (AsksForDigestManifest(path) && HasPrefix(ReportedMessage(w.value), "making url: ")) ||
      (IsProxied(ref, verb, path, fetch) && !proxy.Responded? &&
       (HasPrefix(ReportedMessage(w.value), "creating transport: ") ||
        HasPrefix(ReportedMessage(w.value), "fetching ")))
    ensures IsProxied(ref, verb, path, fetch) ==> (w.None? <==> proxy.Responded?)
  {
    ServeError(Returned(Dispatch(ref, verb, path, fetch), proxy))
  }

  // ---------------------------------------------------------------------------
  // Membership

  /** When the pinned digest answers, no fetch is made: the answer is true, and it
      is the same whatever the upstream would have returned. */
  lemma PinnedDigestNeedsNoFetch(ref: Reference, h: Digest, f1: ManifestFetch, f2: ManifestFetch)
    requires PinsDigest(ref) && ParseDigest(ref.identifier) == Success(h)
    ensures MembershipFetch(ref, h) == None
    ensures Membership(ref, h, f1) == Membership(ref, h, f2) == Success(true)
  {
  }

  /** A digest is a member only through the pinned digest, the upstream's reported
      manifest digest, or a child listed directly in an index-typed response. */
  lemma MemberOnlyByPinHeaderOrChild(ref: Reference, h: Digest, fetch: ManifestFetch)
    requires Membership(ref, h, fetch) == Success(true)
    ensures (PinsDigest(ref) && ParseDigest(ref.identifier) == Success(h))
         || (fetch.Fetched? && fetch.status == STATUS_OK &&
             (ParseDigest(fetch.digestHeader) == Success(h) ||
              (IsIndexMediaType(fetch.contentType) && fetch.index.Success? && h in fetch.index.value)))
  {
  }

  /** Conversely, for an upstream pinned by tag (or by another digest) and a
      successful response whose digest header parses, membership is exactly "the
      reported digest, or a direct child of an index". */
  lemma MembershipOfResponse(ref: Reference, h: Digest, contentType: string, top: Digest,
                             children: seq<Digest>)
    requires FastPath(ref, h).None?
    requires ValidDigest(top)
    ensures Membership(ref, h, Fetched(STATUS_OK, DigestString(top), contentType, Success(children)))
         == Success(top == h || (IsIndexMediaType(contentType) && h in children))
  {
    PrintParsesBack(top);
  }

  /** A response that is not an index is judged without its body: the children a
      non-index body might list are never consulted. */
  lemma NonIndexIgnoresBody(ref: Reference, h: Digest, status: nat, digestHeader: string,
                            contentType: string, body1: Result<seq<Digest>>, body2: Result<seq<Digest>>)
    requires !IsIndexMediaType(contentType)
    ensures Membership(ref, h, Fetched(status, digestHeader, contentType, body1))
         == Membership(ref, h, Fetched(status, digestHeader, contentType, body2))
  {
  }

  /** Membership fails exactly on a malformed pinned digest, a failed or non-200
      fetch, a malformed digest header, or an index body that does not parse when the
      answer depends on it. */
  lemma MembershipFailures(ref: Reference, h: Digest, fetch: ManifestFetch)
    ensures Membership(ref, h, fetch).Failure? <==>
      (PinsDigest(ref) && ParseDigest(ref.identifier).Failure?) ||
      (FastPath(ref, h).None? &&
        (!fetch.Fetched? || fetch.status != STATUS_OK || ParseDigest(fetch.digestHeader).Failure? ||
         (ParseDigest(fetch.digestHeader).value != h && IsIndexMediaType(fetch.contentType) && fetch.index.Failure?)))
  {
  }

  // ---------------------------------------------------------------------------
  // URL rewriting

  /** Every manifest request by tag is forwarded to the upstream's own identifier. */
  lemma TagIsPinned(ref: Reference, repository: string, tag: string, fetch: ManifestFetch)
    requires '/' !in tag && !HasPrefix(tag, DIGEST_PREFIX)
    ensures MakeURL(ref, RequestPath(repository, "manifests", tag), fetch)
         == Success(UpstreamURL(ref, "manifests", ref.identifier))
  {
  }

  /** Whatever repository and tag two clients ask for, they get the same manifest. */
  lemma EveryTagSameTarget(ref: Reference, repo1: string, tag1: string, repo2: string, tag2: string,
                           f1: ManifestFetch, f2: ManifestFetch)
    requires '/' !in tag1 && !HasPrefix(tag1, DIGEST_PREFIX)
    requires '/' !in tag2 && !HasPrefix(tag2, DIGEST_PREFIX)
    ensures MakeURL(ref, RequestPath(repo1, "manifests", tag1), f1)
         == MakeURL(ref, RequestPath(repo2, "manifests", tag2), f2)
  {
    TagIsPinned(ref, repo1, tag1, f1);
    TagIsPinned(ref, repo2, tag2, f2);
  }

  /** A digest that belongs to the upstream image is forwarded verbatim. */
  lemma MemberDigestPassesThrough(ref: Reference, repository: string, identifier: string, fetch: ManifestFetch)
    requires '/' !in identifier && HasPrefix(identifier, DIGEST_PREFIX)
    requires ParseDigest(identifier).Success?
    requires Membership(ref, ParseDigest(identifier).value, fetch) == Success(true)
    ensures MakeURL(ref, RequestPath(repository, "manifests", identifier), fetch)
         == Success(UpstreamURL(ref, "manifests", identifier))
  {
    ParsePrintsBack(identifier);
  }

  /** A well-formed digest that does not belong to the upstream image is replaced by
      the upstream's own identifier. */
  lemma NonMemberDigestIsPinned(ref: Reference, repository: string, identifier: string, fetch: ManifestFetch)
    requires '/' !in identifier && HasPrefix(identifier, DIGEST_PREFIX)
    requires ParseDigest(identifier).Success?
    requires Membership(ref, ParseDigest(identifier).value, fetch) == Success(false)
    ensures MakeURL(ref, RequestPath(repository, "manifests", identifier), fetch)
         == Success(UpstreamURL(ref, "manifests", ref.identifier))
  {
  }

  /** A malformed digest, or a membership check that fails, is an error and never
      falls back to the pinned identifier. */
  lemma DigestProblemsAreErrors(ref: Reference, repository: string, identifier: string, fetch: ManifestFetch)
    requires '/' !in identifier && HasPrefix(identifier, DIGEST_PREFIX)
    requires ParseDigest(identifier).Failure? || Membership(ref, ParseDigest(identifier).value, fetch).Failure?
    ensures MakeURL(ref, RequestPath(repository, "manifests", identifier), fetch).Failure?
  {
  }

  /** Any kind other than manifests keeps the client's identifier and kind, under the
      upstream's registry and repository. */
  lemma OtherKindsPassThrough(ref: Reference, repository: string, kind: string, identifier: string,
                              fetch: ManifestFetch)
    requires '/' !in kind && '/' !in identifier && kind != "manifests"
    ensures MakeURL(ref, RequestPath(repository, kind, identifier), fetch)
         == Success(UpstreamURL(ref, kind, identifier))
  {
    var parts := Split(RequestPath(repository, kind, identifier), '/');
    var n := |parts|;
    assert parts[n - 2] == kind;
    assert parts[n - 2..] == [kind, identifier];
    assert Join([kind, identifier], '/') == kind + "/" + identifier;
    assert UpstreamBase(ref) + (kind + "/" + identifier) == UpstreamURL(ref, kind, identifier);
  }

  /** Only a manifest request by digest can depend on the upstream's answer; every
      other rewrite is made without contacting the upstream. */
  lemma RewriteFetchesOnlyForDigestManifests(ref: Reference, path: string, f1: ManifestFetch, f2: ManifestFetch)
    requires |Split(path, '/')| >= 2 && !AsksForDigestManifest(path)
    ensures MakeURL(ref, path, f1) == MakeURL(ref, path, f2)
    ensures MakeURL(ref, path, f1).Success?
  {
  }

  /** A request for a digest listed directly in the upstream's index (whatever the
      upstream reports as its own digest) is forwarded by that very digest, whether the
      upstream is pinned by tag or by a well-formed digest. */
  lemma ChildDigestPassesThrough(ref: Reference, verb: string, repository: string, top: Digest,
                                 child: Digest, children: seq<Digest>, contentType: string)
    requires verb == "GET" || verb == "HEAD"
    requires PinsDigest(ref) ==> ParseDigest(ref.identifier).Success?
    requires ValidDigest(top) && ValidDigest(child) && child in children && IsIndexMediaType(contentType)
    ensures '/' !in DigestString(child)
    ensures Dispatch(ref, verb, RequestPath(repository, "manifests", DigestString(child)),
                     Fetched(STATUS_OK, DigestString(top), contentType, Success(children)))
         == Proxy(UpstreamURL(ref, "manifests", DigestString(child)), true)
  {
    var id := DigestString(child);
    assert '/' !in id;
    PrintParsesBack(child);
    var fetch := Fetched(STATUS_OK, DigestString(top), contentType, Success(children));
    if FastPath(ref, child).None? {
      MembershipOfResponse(ref, child, contentType, top, children);
    }
    assert Membership(ref, child, fetch) == Success(true);
    assert HasPrefix(id, DIGEST_PREFIX);
    MemberDigestPassesThrough(ref, repository, id, fetch);
    DispatchOfRequest(ref, verb, repository, "manifests", id, fetch);
  }

  // ---------------------------------------------------------------------------
  // Request classification

  /** Every method other than GET and HEAD is refused with 405 DENIED read-only,
      before any URL is built and whatever the upstream would answer. */
  lemma WritesAreRefused(ref: Reference, verb: string, path: string, fetch: ManifestFetch, proxy: ProxyOutcome)
    requires verb != "GET" && verb != "HEAD"
    ensures Dispatch(ref, verb, path, fetch) == Refuse(ERR_READ_ONLY)
    ensures ServeHTTP(ref, verb, path, fetch, proxy) == Some(Written(405, Envelope([Entry("DENIED", "read-only")])))
  {
  }

  /** The version probe sets the API version header and writes no error. */
  lemma VersionProbeAnswered(ref: Reference, verb: string, path: string, fetch: ManifestFetch, proxy: ProxyOutcome)
    requires verb == "GET" || verb == "HEAD"
    requires path == "/v2/" || path == "/v2"
    ensures Dispatch(ref, verb, path, fetch) == Probe("Docker-Distribution-API-Version", "registry/2.0")
    ensures ServeHTTP(ref, verb, path, fetch, proxy) == None
  {
  }

  /** A readable path outside `/v2/` is neither proxied nor answered with an error. */
  lemma OutsideV2Ignored(ref: Reference, verb: string, path: string, fetch: ManifestFetch, proxy: ProxyOutcome)
    requires verb == "GET" || verb == "HEAD"
    requires path != "/v2" && !HasPrefix(path, "/v2/")
    ensures Dispatch(ref, verb, path, fetch) == Ignore
    ensures ServeHTTP(ref, verb, path, fetch, proxy) == None
  {
  }

  /** A proxied request, of any kind, whose forwarding fails is answered with a 500
      INTERNAL_ERROR naming the failure; one the upstream answered gets no error. */
  lemma ProxyFailuresAreInternal(ref: Reference, verb: string, path: string, fetch: ManifestFetch,
                                 proxy: ProxyOutcome)
    requires Dispatch(ref, verb, path, fetch).Proxy?
    ensures var url := Dispatch(ref, verb, path, fetch).url;
      ServeHTTP(ref, verb, path, fetch, proxy) ==
        match proxy
        case TransportError(r) =>
          Some(Written(500, Envelope([Entry("INTERNAL_ERROR", "creating transport: " + r)])))
        case RoundTripError(r) =>
          Some(Written(500, Envelope([Entry("INTERNAL_ERROR", "fetching \"" + url + "\": " + r)])))
        case Responded => None
  {
  }

  /** The upstream's answer can change the decision only for a readable manifest
      request by digest under `/v2/`. */
  lemma UpstreamConsultedOnlyForDigestManifests(ref: Reference, verb: string, path: string,
                                                f1: ManifestFetch, f2: ManifestFetch)
    requires !((verb == "GET" || verb == "HEAD") && HasPrefix(path, "/v2/") && AsksForDigestManifest(path))
    ensures Dispatch(ref, verb, path, f1) == Dispatch(ref, verb, path, f2)
  {
    if (verb == "GET" || verb == "HEAD") && path != "/v2/" && path != "/v2" && HasPrefix(path, "/v2/") {
      assert path == [] + ['/'] + path[1..];
      SplitAround([], '/', path[1..]);
      RewriteFetchesOnlyForDigestManifests(ref, path, f1, f2);
      assert MakeURL(ref, path, f1) == MakeURL(ref, path, f2);
      assert Dispatch(ref, verb, path, f1) == Proxy(MakeURL(ref, path, f1).value, !IsBlobs(path));
    }
  }

  /** A well-shaped readable request is neither the probe nor outside `/v2/`: it is
      decided by the rewriter alone, and its body is copied unless it asks for a blob. */
  lemma DispatchOfRequest(ref: Reference, verb: string, repository: string, kind: string,
                          identifier: string, fetch: ManifestFetch)
    requires verb == "GET" || verb == "HEAD"
    requires '/' !in kind && '/' !in identifier
    ensures var path := RequestPath(repository, kind, identifier);
      Dispatch(ref, verb, path, fetch) ==
        match MakeURL(ref, path, fetch)
        case Failure(e) => Refuse(NewError(Opaque("making url: " + e)))
        case Success(url) => Proxy(url, kind != "blobs")
  {
    var path := RequestPath(repository, kind, identifier);
    assert path != "/v2/" && path != "/v2" by {
      assert |path| >= 6;
    }
  }

  /** Blob requests are forwarded unchanged and their response body is not copied;
      every other kind has its body copied back. */
  lemma BlobsForwardedWithoutBody(ref: Reference, verb: string, repository: string, kind: string,
                                  identifier: string, fetch: ManifestFetch)
    requires verb == "GET" || verb == "HEAD"
    requires '/' !in kind && '/' !in identifier && kind != "manifests"
    ensures IsBlobs(RequestPath(repository, kind, identifier)) <==> kind == "blobs"
    ensures Dispatch(ref, verb, RequestPath(repository, kind, identifier), fetch)
         == Proxy(UpstreamURL(ref, kind, identifier), kind != "blobs")
  {
    DispatchOfRequest(ref, verb, repository, kind, identifier, fetch);
    OtherKindsPassThrough(ref, repository, kind, identifier, fetch);
  }

  // ---------------------------------------------------------------------------
  // The documented scenarios, for `registry.example.com/base/image:v2`

  const EXAMPLE := Reference("https", "registry.example.com", "base/image", "v2")

  lemma ExampleBase()
    ensures UpstreamBase(EXAMPLE) == "https://registry.example.com/v2/base/image/"
  {
    var scheme := "https" + "://";
    assert scheme == "https://";
    var host := scheme + "registry.example.com";
    assert host == "https://registry.example.com";
    var v2 := host + "/v2/";
    assert v2 == "https://registry.example.com/v2/";
    var repository := v2 + "base/image";
    assert repository == "https://registry.example.com/v2/base/image";
    assert repository + "/" == "https://registry.example.com/v2/base/image/";
  }

  lemma ExampleTagRequest(path: string, fetch: ManifestFetch)
    requires path == "/v2/anything/manifests/latest"
    ensures Dispatch(EXAMPLE, "GET", path, fetch)
         == Proxy("https://registry.example.com/v2/base/image/manifests/v2", true)
  {
    assert path == RequestPath("anything", "manifests", "latest");
    DispatchOfRequest(EXAMPLE, "GET", "anything", "manifests", "latest", fetch);
    TagIsPinned(EXAMPLE, "anything", "latest", fetch);
    ExampleBase();
    assert UpstreamURL(EXAMPLE, "manifests", "v2") == "https://registry.example.com/v2/base/image/" + "manifests" + "/" + "v2";
  }

  lemma ExampleBlobRequest(path: string, hex: string, fetch: ManifestFetch)
    requires '/' !in hex && path == "/v2/anything/blobs/sha256:" + hex
    ensures Dispatch(EXAMPLE, "GET", path, fetch)
         == Proxy("https://registry.example.com/v2/base/image/blobs/sha256:" + hex, false)
  {
    var id := "sha256:" + hex;
    assert '/' !in id;
    assert "/v2/" + "anything" + "/" + "blobs" + "/" == "/v2/anything/blobs/";
    assert "/v2/anything/blobs/sha256:" == "/v2/anything/blobs/" + "sha256:";
    assert path == RequestPath("anything", "blobs", id);
    BlobsForwardedWithoutBody(EXAMPLE, "GET", "anything", "blobs", id, fetch);
    ExampleBase();
    var base := "https://registry.example.com/v2/base/image/";
    assert UpstreamURL(EXAMPLE, "blobs", id) == base + "blobs" + "/" + id;
    assert base + "blobs" + "/" == "https://registry.example.com/v2/base/image/blobs/";
    assert "https://registry.example.com/v2/base/image/blobs/sha256:"
        == "https://registry.example.com/v2/base/image/blobs/" + "sha256:";
  }

  /** The example upstream is pinned by tag. */
  lemma ExampleNotPinned()
    ensures !PinsDigest(EXAMPLE)
  {
    assert |EXAMPLE.identifier| < |DIGEST_PREFIX|;
  }

  /** The example's manifest request path and upstream URL for identifier `id`. */
  lemma ExampleManifestStrings(id: string)
    requires '/' !in id
    ensures RequestPath("anything", "manifests", id) == "/v2/anything/manifests/" + id
    ensures UpstreamURL(EXAMPLE, "manifests", id) == "https://registry.example.com/v2/base/image/manifests/" + id
  {
    var path := "/v2/" + "anything" + "/" + "manifests" + "/";
    assert path == "/v2/anything/manifests/";
    assert RequestPath("anything", "manifests", id) == path + id;
    ExampleBase();
    var url := "https://registry.example.com/v2/base/image/" + "manifests" + "/";
    assert url == "https://registry.example.com/v2/base/image/manifests/";
    assert UpstreamURL(EXAMPLE, "manifests", id) == url + id;
  }

  /** A child of the upstream's index is fetched by its own digest. */
  lemma ExampleChildRequest(path: string, top: Digest, child: Digest, others: seq<Digest>)
    requires ValidDigest(top) && ValidDigest(child)
    requires path == "/v2/anything/manifests/" + DigestString(child)
    ensures Dispatch(EXAMPLE, "GET", path,
                     Fetched(STATUS_OK, DigestString(top), OCI_IMAGE_INDEX, Success([child] + others)))
         == Proxy("https://registry.example.com/v2/base/image/manifests/" + DigestString(child), true)
  {
    ExampleNotPinned();
    ChildDigestPassesThrough(EXAMPLE, "GET", "anything", top, child, [child] + others, OCI_IMAGE_INDEX);
    ExampleManifestStrings(DigestString(child));
  }

  /** A digest found neither as the upstream's manifest nor among its index children
      is answered with the pinned manifest. */
  lemma ExampleUnknownDigestRequest(path: string, top: Digest, unknown: Digest, children: seq<Digest>)
    requires ValidDigest(top) && ValidDigest(unknown) && unknown != top && unknown !in children
    requires path == "/v2/anything/manifests/" + DigestString(unknown)
    ensures Dispatch(EXAMPLE, "GET", path,
                     Fetched(STATUS_OK, DigestString(top), OCI_IMAGE_INDEX, Success(children)))
         == Proxy("https://registry.example.com/v2/base/image/manifests/v2", true)
  {
    var id := DigestString(unknown);
    ExampleNotPinned();
    assert '/' !in id && HasPrefix(id, DIGEST_PREFIX);
    PrintParsesBack(unknown);
    var fetch := Fetched(STATUS_OK, DigestString(top), OCI_IMAGE_INDEX, Success(children));
    MembershipOfResponse(EXAMPLE, unknown, OCI_IMAGE_INDEX, top, children);
    NonMemberDigestIsPinned(EXAMPLE, "anything", id, fetch);
    DispatchOfRequest(EXAMPLE, "GET", "anything", "manifests", id, fetch);
    ExampleManifestStrings(id);
    ExampleManifestStrings("v2");
  }
}
