# pmdapi client model

A Dafny model of the client-side decision logic of `pmdapi`, the Python client
for the PublishMyData "draftset" service. A `PublishMyData` session obtains an
OAuth bearer token and then lists, fetches and creates draftsets. A `Draftset`
handle deletes, claims and submits its draftset and appends RDF data to it.

What is modelled is everything the client decides for itself:

- the argument checks it runs before sending anything (`get_draftsets`'
  filter, `submit_to`'s role/user rule, `append_data`'s format, graph and
  encoding rules, the `Draftset` type check);
- how a server record becomes a `Draftset` (kebab-case keys, required and
  optional fields, a listing's list comprehension);
- how each response status is read: one success status per operation, every
  other status raising with the body, and the new id taken from the
  `location` header of a 303.

The service is a parameter `server: Request -> Response`. Every session
operation returns the requests it sent. This makes "nothing is sent when the
arguments are refused" and "exactly one follow-up fetch after a 303" provable.

Modules:

- `Values` (values.dfy): optional arguments with Python truthiness, JSON values, errors.
- `Arguments` (arguments.dfy): the filter, kind and recipient checks.
- `Formats` (formats.dfy): the RDF formats and `append_data`'s checks.
- `Records` (records.dfy): record decoding and its inverse.
- `Location` (location.dfy): `rsplit("/")` and the last path segment.
- `Client` (client.dfy): response interpretation and the `Session` class with its operations.

Three behaviours of the code that its argument names do not suggest:

- `append_data` requires at least one of `extension` and `content_type`, not
  exactly one. A listed content type passed beside an extension is ignored.
- `submit_to` tests Python truthiness, so `role="editor", user=""` is accepted
  as a submission to the editors' pool.
- The listing filter is validated, but it is sent under the form key `incude`.
  The model records the filter in the request and does not model form keys.

## Model

| member | source | states |
|---|---|---|
| Arguments.ParseInclude | __init__.py:57 | the filter is accepted exactly when it is `owned`, `claimable` or `all`, and the accepted value names that filter; anything else fails the include assertion |
| Arguments.IncludeRoundTrip | __init__.py:57 | each of the three filters is accepted under its own name and comes back unchanged |
| Arguments.ParseKind | __init__.py:177-178 | a draftset's type is accepted exactly when it is the string `Endpoint` or `Draftset`; any other value fails the type assertion |
| Arguments.ParseRecipient | __init__.py:230-232 | accepted exactly when the role is listed or absent and exactly one of role and user is truthy; an unlisted role fails first, then both-or-neither fails the exclusive-or check; an accepted pool came from the role argument and an accepted user from a non-empty user argument with no role |
| Arguments.RecipientRoundTrip | __init__.py:230-232 | a pool or a non-empty user name, passed as its own keyword arguments, is accepted and recovered unchanged |
| Formats.TablesDescribeFormats | __init__.py:293-326 | the extension map sends each RDF format's extension to its media type; the extension and content-type lists name exactly the six formats; the graph-demanding list holds exactly the triple formats |
| Formats.ValidateUpload | __init__.py:302-329 | accepted exactly when the call names one of the six formats, a triple format comes with a truthy graph, and the encoding is gzip, x-gzip or absent; an accepted call carries the named format's media type and the caller's graph and encoding; neither extension nor content type fails first, then an unlisted extension; every failure is an assertion |
| Formats.ExtensionOverridesContentType | __init__.py:318-319 | with an extension given, any listed content type or none beside it gives the same outcome |
| Formats.GraphNeededExactlyForTriples | __init__.py:321-327 | naming a format by extension or by content type, the call is accepted without a graph exactly for TriG and N-Quads |
| Records.DecodeDraftset | __init__.py:112-125 | a record decodes exactly when it is an object with the five required keys and a valid type; the draftset holds what the record holds under each of the eleven keys, with null for a missing optional key; a non-object raises TypeError, the first missing required key raises KeyError, and otherwise the type check fails |
| Records.EncodeHoldsFields | __init__.py:112-125 | the record of a draftset holds each field under that field's kebab-case key |
| Records.DecodeEncode | __init__.py:112-125 | decoding the record of any draftset gives that draftset back |
| Records.DecodeAll | __init__.py:74-88 | the list comprehension succeeds exactly when every record decodes, giving one draftset per record in order; on failure it raises the error of the first record that fails |
| Records.DecodeListing | __init__.py:74-89 | a JSON array decodes record by record; an empty object or string gives the empty listing and a non-empty one raises TypeError; a scalar cannot be iterated |
| Records.DecodeListingEncodeAll | __init__.py:74-88 | a listing of encoded draftsets decodes to the same draftsets in the same order |
| Location.JoinSplit | __init__.py:157 | joining the pieces of `rsplit("/")` with slashes restores the string |
| Location.SplitJoin | __init__.py:157 | pieces without slashes are recovered by splitting their slash-joined string |
| Location.LastSegment | __init__.py:157 | the id is a suffix of the header with no slash in it, preceded by a slash unless it is the whole header |
| Location.LastSegmentOfPath | __init__.py:157 | whatever precedes the final slash, the slash-free id after it is recovered |
| Client.Expect | __init__.py:192-195 | a response passes exactly when its status is the operation's one success status (303 for create, 202 for delete, 200 otherwise); otherwise the error carries the body verbatim |
| Client.TokenFrom | __init__.py:45-48 | a token is obtained exactly on 200 with a JSON object holding `access_token`, and it is that value; any other status raises with the body |
| Client.ListingFrom | __init__.py:72-92 | a listing is obtained only on 200 with a JSON body, and it is the decoded body; any other status raises with the body |
| Client.DraftsetFrom | __init__.py:110-128 | a draftset is obtained only on 200 with a JSON body, and it is the decoded record; any other status raises with the body |
| Client.CreatedIdFrom | __init__.py:156-160 | an id is obtained exactly on 303 with a `location` header; it is the slash-free last segment of that header; a 303 without the header raises KeyError and any other status raises with the body |
| Client.DeletedFrom | __init__.py:192-195 | deletion succeeds exactly on 202 and then reports `true`; any other status raises with the body |
| Client.Session.Unauthenticated | __init__.py:15-19 | a new session holds the given credentials and base URL and no token yet |
| Client.Session.GetToken | __init__.py:24-48 | sends one unauthenticated token request with the credentials, audience and grant type; on success the token becomes the session's, on failure the session's token is unchanged |
| Client.Session.Connect | __init__.py:21-22 | builds and authenticates a session (base URL defaulting to the staging address) with audience `https://pmd` and grant type `client_credentials`, the defaults of `GetToken`; a session is returned exactly when authentication succeeds, and then holds the obtained token |
| Client.Session.GetDraftsets | __init__.py:50-92 | the filter defaults to `all` and union-with-live to false; an unknown filter is refused with no request sent; otherwise exactly one listing request with the session's token, whose response decides the result |
| Client.Session.GetDraftset | __init__.py:94-128 | exactly one fetch request with the session's token, whose response decides the result |
| Client.Session.CreateDraftset | __init__.py:130-160 | one creation request; a second request is sent exactly when the response yields a new id, and it fetches that id without union-with-live; the result is that fetch's draftset; otherwise the creation error is raised |
| Client.Session.Delete | __init__.py:180-195 | exactly one deletion request for the draftset's id, whose status decides the result |
| Client.Session.Claim | __init__.py:197-218 | one claim request; on 200 exactly one fetch of the same id follows and decides the result; any other status raises with the body and nothing more is sent |
| Client.Session.SubmitTo | __init__.py:220-249 | refused role/user arguments send nothing; otherwise one submission request carrying the role and user as given, then on 200 exactly one fetch of the same id, and on any other status an error with the body |

## Left out

- Network and authentication I/O: the service and the token endpoint are the `server` parameter. Transport failures raised by the HTTP library are not modelled.
- Request formatting: the fixed staging URLs, headers other than the bearer token, the form and query encoding, and the misspelt `incude` form key. `baseUrl` is stored but, as in the code, never used.
- `publish` (__init__.py:252-267): it sends a request and ignores the response, so the client decides nothing there.
- The file read and the upload request of `append_data` (__init__.py:331-345). Its checks are `Formats.ValidateUpload`, which depends on the arguments alone. The upload's response is not checked by the code either.
- The `isinstance` checks on `union_with_live` and `user` (__init__.py:58, 97, 231): the Dafny types already guarantee them.
- JSON parsing of response bodies and UTF-8 decoding of error bodies: a response carries its body as text and, when it is JSON, as a decoded value. JSON numbers are modelled as integers and never inspected.
- Header names: `headers` is keyed by lower-case names, which stands for the case-insensitive lookup of `response.headers["location"]`.
- The back-reference of a `Draftset` to its session: the draftset operations are `Session` methods that take the draftset value. A draftset is a value and is never changed in place.
- Draftset ids, timestamps and `changes` are opaque JSON values passed through unchanged. They are not typed as UUIDs, strings or dicts.
- Running Python with assertions disabled (`-O`), which would skip every check the model states.
