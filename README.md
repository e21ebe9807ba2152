# always: the routing core of a read-only registry mirror

`always` is a registry mirror that answers the Docker/OCI Registry HTTP API v2 but
serves one fixed, operator-configured upstream image for every tag. This project
models the part of it that makes decisions, and proves what that part promises:

- the request classifier at the top of the handler (`serveHTTP`): refuse writes,
  answer the version probe, ignore paths outside `/v2/`, otherwise rewrite and proxy;
- the URL rewriter (`makeURL`): manifest requests are pinned to the upstream's own
  identifier unless they name a digest that belongs to the upstream image, which is
  then passed through verbatim; every other kind keeps its identifier;
- the digest membership resolver (`inManifest`): the pinned digest, the digest the
  upstream reports for its manifest, or a child listed directly in its index;
- the registry error values and how an error becomes a response (`errors.go`).

Modules:

- `Wrappers` (wrappers.dfy): `Option` and `Result`; a failed result carries the
  error's text, the only part of a wrapped Go error the mirror ever uses.
- `Strings` (strings.dfy): `HasPrefix`, and `Split`/`Join` on a one-character
  separator with Go's `strings.Split` semantics (empty pieces kept), with the
  round trip `Join(Split(s)) == s` and the splitting lemmas the router needs.
- `Digests` (digests.dfy): `sha256:<64 lower-case hex>` digests, their parser and
  their canonical text, with both round trips proved.
- `Errors` (errors.dfy): the structured `Error`, the read-only refusal, `NewError`,
  and `ServeError` returning the status and body it writes instead of writing them.
- `Registry` (registry.dfy): the upstream `Reference`, the membership resolver as
  the looping method `InManifest` proved equal to the function `Membership`, the
  rewriter `MakeURL`, the classifier `Dispatch`, the composed handler `ServeHTTP`,
  and the properties below.

The upstream reference is a value fixed for the life of the process; every routing
decision is a function of it, the request and (for membership only) the upstream's
answer to one manifest GET, so repeating a request gives the same decision. That GET
is an input, `ManifestFetch`: a failure before a response, or the response's status,
`Docker-Content-Digest` and `Content-Type` headers and its body read as an index.
"No upstream call" is stated as the result not depending on that input, and
`InManifest` also returns the URL it would fetch (none when the pinned digest answers).

Two behaviours of the code worth noting. A client identifier with the `sha256:`
prefix that does not parse, or a membership check that fails (including an upstream
response without a parsable `Docker-Content-Digest` header), is an error answered
with a 500, not a fallback to the pinned identifier
(internal/registry/registry.go:112-120). A short path such as `/v2/x` is not ignored
but rewritten by the default branch to `<upstream>/v2/<repository>/v2/x`
(internal/registry/registry.go:144-151).

Forwarding itself is reduced to its outcome, `ProxyOutcome`: the transport could
not be built, the round trip failed, or the upstream responded. The first two are
answered with a 500 whatever the resource kind.

## Model

| member | source | states |
|---|---|---|
| `Registry.Dispatch` | internal/registry/registry.go:50-67 | only GET/HEAD requests under `/v2/` are proxied, always to a URL under the upstream's scheme, host and repository, with the body copied back exactly when the path is not a blob path; a refusal is either the read-only error or a 500 for a manifest-by-digest request |
| `Registry.WritesAreRefused` | internal/registry/registry.go:51-53 | any method other than GET/HEAD is refused with the read-only error, whatever the path and upstream answer, and the response is 405 with one `DENIED`/`read-only` entry |
| `Registry.VersionProbeAnswered` | internal/registry/registry.go:55-58 | `/v2/` and `/v2` set `Docker-Distribution-API-Version: registry/2.0` and no error response is written |
| `Registry.OutsideV2Ignored` | internal/registry/registry.go:60-62 | a readable path outside `/v2/` (other than the probe) is ignored: nothing proxied, no error written |
| `Registry.UpstreamConsultedOnlyForDigestManifests` | internal/registry/registry.go:107-131 | the upstream's answer can change the decision only for a readable `/v2/` request whose last two segments are `manifests` and a `sha256:`-prefixed identifier |
| `Registry.DispatchOfRequest` | internal/registry/registry.go:64-67 | a well-shaped readable request is decided by the rewriter alone: its error becomes a 500 wrapping `making url: ...`, its URL is proxied, body copied unless kind is `blobs` |
| `Registry.ServeHTTP` | internal/registry/registry.go:46-48 | the handler writes an error response only as 405 or 500; a 405 exactly for methods other than GET/HEAD; a 500 only for a manifest request by `sha256:` identifier whose URL could not be made (`making url: ...`) or for a proxied request whose forwarding failed (`creating transport: ...` / `fetching ...`); a proxied request gets no error response exactly when the upstream responded |
| `Registry.ProxyFailuresAreInternal` | internal/registry/registry.go:78-86 | a proxied request of any kind whose transport cannot be built or whose round trip fails is answered with a 500 `INTERNAL_ERROR` entry `creating transport: <reason>` or `fetching "<url>": <reason>`; one the upstream answered gets no error response |
| `Registry.MakeURL` | internal/registry/registry.go:104-153 | every rewritten URL starts with the upstream's `scheme://registry/v2/repository/`, and the rewriter can fail only for a manifest request by `sha256:` identifier |
| `Registry.RequestPath` | internal/registry/registry.go:105-107 | for a path `/v2/<repository>/<kind>/<identifier>` the last two segments after splitting on `/` are the kind and the identifier, whatever the repository contains |
| `Registry.TagIsPinned` | internal/registry/registry.go:133-142 | a manifest request by tag is forwarded to the upstream's own identifier |
| `Registry.EveryTagSameTarget` | internal/registry/registry.go:133-142 | any two manifest requests by tag, in any repositories, are forwarded to the same URL |
| `Registry.MemberDigestPassesThrough` | internal/registry/registry.go:112-130 | a manifest digest that is a member of the upstream image is forwarded verbatim under the upstream's host and repository |
| `Registry.NonMemberDigestIsPinned` | internal/registry/registry.go:121-142 | a well-formed manifest digest that is not a member is replaced by the upstream's own identifier |
| `Registry.DigestProblemsAreErrors` | internal/registry/registry.go:112-120 | a malformed `sha256:` identifier or a failed membership check is an error, not a fallback URL |
| `Registry.OtherKindsPassThrough` | internal/registry/registry.go:144-151 | any kind other than `manifests` is forwarded with its kind and identifier unchanged under the upstream's host and repository |
| `Registry.RewriteFetchesOnlyForDigestManifests` | internal/registry/registry.go:107-153 | except for a manifest request by `sha256:` identifier, the rewrite succeeds and does not depend on the upstream's answer |
| `Registry.BlobsForwardedWithoutBody` | internal/registry/registry.go:237-245 | `isBlobs` holds exactly for kind `blobs`; a non-manifest request is proxied to the same kind and identifier upstream, with the body copied unless it is a blob |
| `Registry.ChildDigestPassesThrough` | internal/registry/registry.go:205-217 | a request for a digest listed directly in an index-typed upstream response is forwarded by that very digest, for an upstream pinned by tag or by any well-formed digest |
| `Registry.InManifest` | internal/registry/registry.go:155-220 | the early-return scan of the index children computes exactly `Membership`, and the URL it would fetch is the pinned manifest URL unless the pinned digest already answered |
| `Registry.PinnedDigestNeedsNoFetch` | internal/registry/registry.go:156-165 | when the upstream is pinned to the queried digest the answer is true with no fetch and regardless of any upstream answer |
| `Registry.MemberOnlyByPinHeaderOrChild` | internal/registry/registry.go:155-220 | membership holds only through the pinned digest, the reported manifest digest of a 200 response, or a direct child of an index-typed 200 response (one level only) |
| `Registry.MembershipOfResponse` | internal/registry/registry.go:197-220 | for a 200 response with a valid digest header, membership is exactly "the reported digest, or an index media type listing the digest among its children" |
| `Registry.NonIndexIgnoresBody` | internal/registry/registry.go:205-206 | for a media type other than Docker manifest list or OCI image index the body is never consulted |
| `Registry.MembershipFailures` | internal/registry/registry.go:157-209 | membership fails exactly on a malformed pinned digest, a failed or non-200 fetch, an unparsable digest header, or an unparsable index body when it is needed |
| `Registry.ExampleTagRequest` | internal/registry/registry.go:133-142 | upstream `registry.example.com/base/image:v2`, `/v2/anything/manifests/latest` goes to `https://registry.example.com/v2/base/image/manifests/v2` |
| `Registry.ExampleBlobRequest` | internal/registry/registry.go:144-151 | `/v2/anything/blobs/sha256:<hex>` goes to `https://registry.example.com/v2/base/image/blobs/sha256:<hex>` without copying the body |
| `Registry.ExampleChildRequest` | internal/registry/registry.go:121-130 | a request for a child digest of the upstream's OCI index goes upstream with that digest unchanged |
| `Registry.ExampleUnknownDigestRequest` | internal/registry/registry.go:133-142 | a digest that is neither the upstream's manifest nor one of its children goes to the pinned `manifests/v2` |
| `Digests.ParseDigest` | internal/registry/registry.go:113-116 | every digest the parser accepts is a valid `sha256` digest of 64 lower-case hex digits |
| `Digests.ParsePrintsBack` | internal/registry/registry.go:113-128 | a parsed digest prints back as exactly the client's text, which is why a member digest is forwarded verbatim |
| `Digests.PrintParsesBack` | internal/registry/registry.go:197-203 | every valid digest parses back from its canonical text |
| `Errors.NewError` | internal/registry/errors.go:34-40 | the wrapper is always a 500 with code `INTERNAL_ERROR` whose `Error()` text is the wrapped error's text |
| `Errors.ServeError` | internal/registry/errors.go:42-60 | nothing is written for no error, and whatever is written reports the error's own text |
| `Errors.StructuredRoundTrip` | internal/registry/errors.go:46-57 | a structured error is written with its own status and exactly one envelope entry from which the client recovers that error |
| `Errors.OpaqueIsInternal` | internal/registry/errors.go:59 | any other error is written as a 500 with its text as a plain body |
| `Errors.ReadOnlyResponse` | internal/registry/errors.go:9-15 | the read-only refusal is written as 405 with the single entry `DENIED`/`read-only` |
| `Errors.WrappedServesLikeOpaque` | internal/registry/errors.go:29-40 | wrapping an error with `NewError` changes only the framing: the same 500 status and the same reported text as serving it unwrapped |

## Left out

- The proxying after the URL is built (internal/registry/registry.go:69-101): building the upstream request, copying request and response headers, the round trip and streaming the body are HTTP I/O; the model keeps the decision `Proxy(url, copyBody)` and the outcome of forwarding (`ProxyOutcome`), whose two failures become 500s.
- `newTransport` (internal/registry/registry.go:223-235): keychain credential resolution and authenticated transport construction are library calls; their failures appear only as the `TransportFailed` input of the membership fetch.
- The manifest GET in `inManifest` (internal/registry/registry.go:168-195) is an input (`ManifestFetch`), and `v1.ParseIndexManifest` is represented by the index field of that input (children's digests or the parser's error).
- `name.ParseReference` and `Scheme()`: the reference is a record whose scheme, registry, repository and identifier are given; `NewRegistry` (construction and its parse error) and `options.go` (setting a context) are not part of this model.
- `v1.NewHash` is modelled by the digest syntax the mirror relies on (`sha256:` and 64 lower-case hex digits); the texts of library errors (digest parsing, the non-200 check) are stand-ins, while the mirror's own `fmt.Errorf` prefixes are kept.
- Errors.ServeError: JSON encoding is represented by the list of `{code, message}` entries, and `http.Error`'s framing (trailing newline, content-type headers) is not modelled; an encoding failure is only logged by the source and is not modelled.
- Registry.ServeHTTP: states only the error response written by the response writer; the relayed upstream response and the default 200 of a response with no explicit status are not modelled, and Go's `%q` escaping of the URL in the `fetching` message is modelled as plain double quotes.
- cmd/root.go (flag parsing, `http.ListenAndServe`), logging, and concurrent request dispatch (the reference is never mutated, so there is nothing to interleave).
