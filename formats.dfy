/** The argument checks of `append_data`: which RDF serialisation is being
    uploaded, whether it needs a target graph, and how it is encoded. All of
    them run before the file is opened, so they depend on the arguments alone. */
module Formats {
  import opened Values

  /** The RDF 1.1 serialisations the service accepts. */
  datatype RdfFormat = TriG | Turtle | NQuads | TriX | NTriples | RdfXml

  /** The file extension of each format. */
  function FileExtension(f: RdfFormat): string {
    match f
    case TriG => ".trig"
    case Turtle => ".ttl"
    case NQuads => ".nq"
    case TriX => ".trix"
    case NTriples => ".nt"
    case RdfXml => ".rdf"
  }

  /** The media type of each format. */
  function MediaType(f: RdfFormat): string {
    match f
    case TriG => "application/trig"
    case Turtle => "text/turtle"
    case NQuads => "application/n-quads"
    case TriX => "application/trix"
    case NTriples => "application/n-triples"
    case RdfXml => "application/rdf+xml"
  }

  /** Quad formats name a graph in every statement; triple formats do not. */
  predicate IsQuad(f: RdfFormat) {
    f == TriG || f == NQuads
  }

  /** The client's own tables, as it writes them. */
  const Extensions: seq<string> := [".trig", ".ttl", ".nq", ".trix", ".nt", ".rdf"]

  const ContentTypes: seq<string> :=
    ["application/trig", "text/turtle", "application/n-quads",
     "application/trix", "application/n-triples", "application/rdf+xml"]

  const ExtensionMap: map<string, string> :=
    map[".trig" := "application/trig", ".ttl" := "text/turtle",
        ".nq" := "application/n-quads", ".trix" := "application/trix",
        ".nt" := "application/n-triples", ".rdf" := "application/rdf+xml"]

  /** The content types that `append_data` refuses without a graph. */
  const TripleContentTypes: seq<string> :=
    ["text/turtle", "application/trix", "application/n-triples", "application/rdf+xml"]

  const Encodings: seq<string> := ["gzip", "x-gzip"]

  /** The client's tables agree with the RDF formats: the extension map sends
      each format's extension to its media type and nothing else, the two
      lists name exactly the six formats, and the graph-demanding list holds
      exactly the triple formats. */
  lemma TablesDescribeFormats()
    ensures forall f: RdfFormat :: FileExtension(f) in ExtensionMap && ExtensionMap[FileExtension(f)] == MediaType(f)
    ensures forall e :: e in ExtensionMap <==> e in Extensions
    ensures forall e :: e in Extensions <==> exists f: RdfFormat :: e == FileExtension(f)
    ensures forall t :: t in ContentTypes <==> exists f: RdfFormat :: t == MediaType(f)
    ensures forall f: RdfFormat :: MediaType(f) in TripleContentTypes <==> !IsQuad(f)
  {
    forall e | e in Extensions ensures exists f: RdfFormat :: e == FileExtension(f) {
      var f := FormatOfExtension(e);
    }
    forall t | t in ContentTypes ensures exists f: RdfFormat :: t == MediaType(f) {
      var f := FormatOfMediaType(t);
    }
  }

  function FormatOfExtension(e: string): (f: RdfFormat)
    requires e in Extensions
    ensures FileExtension(f) == e
  {
    if e == ".trig" then TriG else if e == ".ttl" then Turtle
    else if e == ".nq" then NQuads else if e == ".trix" then TriX
    else if e == ".nt" then NTriples else RdfXml
  }

  function FormatOfMediaType(t: string): (f: RdfFormat)
    requires t in ContentTypes
    ensures MediaType(f) == t
  {
    if t == "application/trig" then TriG else if t == "text/turtle" then Turtle
    else if t == "application/n-quads" then NQuads else if t == "application/trix" then TriX
    else if t == "application/n-triples" then NTriples else RdfXml
  }

  /** What an accepted `append_data` call sends: the resolved content type and
      the graph and encoding as the caller gave them. */
  datatype Upload = Upload(contentType: string, graph: Option<string>, contentEncoding: Option<string>)

  /** `f` is the format a call names: the extension's when an extension is
      given, whatever listed content type comes with it, and otherwise the
      content type's. */
  predicate Names(f: RdfFormat, extension: Option<string>, contentType: Option<string>) {
    if extension.Some? then extension.value == FileExtension(f) && AbsentOrIn(contentType, ContentTypes)
    else contentType == Some(MediaType(f))
  }

  /** The rebinding of `content_type` in `append_data`: a supplied extension
      replaces whatever content type was passed. */
  function ResolveContentType(extension: Option<string>, contentType: Option<string>): (t: Option<string>)
    requires AbsentOrIn(extension, Extensions)
  {
    if Truthy(extension) then Some(ExtensionMap[extension.value]) else contentType
  }

  /** The checks of `append_data`, in the order it runs them. A call is
      accepted exactly when it names one of the six formats, a triple format
      comes with a graph, and the encoding is gzip, x-gzip or absent. */
  function ValidateUpload(extension: Option<string> := None, contentType: Option<string> := None,
                          graph: Option<string> := None, contentEncoding: Option<string> := None)
    : (r: Result<Upload>)
    ensures r.Ok? <==>
              (exists f: RdfFormat :: Names(f, extension, contentType) && (IsQuad(f) || Truthy(graph)))
              && AbsentOrIn(contentEncoding, Encodings)
    ensures forall f: RdfFormat :: Names(f, extension, contentType) && r.Ok? ==>
              r.value == Upload(MediaType(f), graph, contentEncoding)
    ensures !Truthy(extension) && !Truthy(contentType) ==> r == Err(AssertionFailed(FormatGiven))
    ensures (Truthy(extension) || Truthy(contentType)) && !AbsentOrIn(extension, Extensions) ==>
              r == Err(AssertionFailed(KnownExtension))
    ensures r.Err? && r.error == AssertionFailed(GraphForTriples) ==> !Truthy(graph)
    ensures r.Err? ==> r.error.AssertionFailed?
  {
    TablesDescribeFormats();
    if !(Truthy(extension) || Truthy(contentType)) then Err(AssertionFailed(FormatGiven))
    else if !AbsentOrIn(extension, Extensions) then Err(AssertionFailed(KnownExtension))
    else if !AbsentOrIn(contentType, ContentTypes) then Err(AssertionFailed(KnownContentType))
    else
      var resolved := ResolveContentType(extension, contentType);
      if resolved.value in TripleContentTypes && !Truthy(graph) then Err(AssertionFailed(GraphForTriples))
      else if !AbsentOrIn(contentEncoding, Encodings) then Err(AssertionFailed(KnownEncoding))
      else Ok(Upload(resolved.value, graph, contentEncoding))
  }

  /** A supplied extension decides the content type: any listed content type,
      or none, passed beside it leads to the same outcome. */
  lemma ExtensionOverridesContentType(f: RdfFormat, contentType: Option<string>, otherType: Option<string>,
                                      graph: Option<string>, contentEncoding: Option<string>)
    requires AbsentOrIn(contentType, ContentTypes) && AbsentOrIn(otherType, ContentTypes)
    ensures ValidateUpload(Some(FileExtension(f)), contentType, graph, contentEncoding)
         == ValidateUpload(Some(FileExtension(f)), otherType, graph, contentEncoding)
  {
  }

  /** Quad formats need no graph; triple formats are refused without one,
      whichever way the format is named. */
  lemma GraphNeededExactlyForTriples(f: RdfFormat, byExtension: bool, graph: Option<string>,
                                     contentEncoding: Option<string>)
    requires AbsentOrIn(contentEncoding, Encodings)
    ensures var r := if byExtension then ValidateUpload(Some(FileExtension(f)), None, graph, contentEncoding)
                     else ValidateUpload(None, Some(MediaType(f)), graph, contentEncoding);
            r.Ok? <==> IsQuad(f) || Truthy(graph)
  {
  }
}
