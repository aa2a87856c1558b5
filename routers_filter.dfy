/** The static file filter of package `routers`: which file of the web
    front end's build a request path is answered with, and how the branding
    tokens compiled into that file are replaced by the configured ones
    before it is served.

    util.FileExist and util.ReadStringFromPath are parameters; opening the
    file and writing the HTTP response are not part of this model. */
module Routers {
  import opened Wrappers
  import opened GoStrings

  /* ----------------------------------------------------------------------
     Path resolution
     ---------------------------------------------------------------------- */

  /** The directory the front end's build is served from. */
  const BuildDir := "web/build"

  /** The single-page application's entry document. */
  const IndexFile := "web/build/index.html"

  /** Requests under this prefix belong to the API and are not served here. */
  const ApiPrefix := "/api/"

  /** The file TransparentStatic serves for a request path, or None when it
      leaves the request to the API. A path whose file does not exist is
      answered with the index document. */
  function ResolvePath(urlPath: string, fileExist: string -> bool): (path: Option<string>)
    ensures path.None? <==> HasPrefix(urlPath, ApiPrefix)
    ensures path.Some? ==> path.value == IndexFile || (fileExist(path.value) && path.value == BuildDir + urlPath)
    ensures path.Some? && urlPath != "/" && fileExist(BuildDir + urlPath) ==> path.value == BuildDir + urlPath
    ensures path.Some? && !fileExist(BuildDir + urlPath) ==> path.value == IndexFile
    ensures urlPath == "/" ==> path == Some(IndexFile)
  {
    if HasPrefix(urlPath, ApiPrefix) then None
    else
      var candidate := if urlPath == "/" then IndexFile else BuildDir + urlPath;
      Some(if fileExist(candidate) then candidate else IndexFile)
  }

  /** Whatever the request path, a served file lies under the build
      directory, textually. */
  lemma ServedPathIsUnderBuildDir(urlPath: string, fileExist: string -> bool)
    requires ResolvePath(urlPath, fileExist).Some?
    ensures HasPrefix(ResolvePath(urlPath, fileExist).value, BuildDir)
  {
    var path := ResolvePath(urlPath, fileExist).value;
    if path == IndexFile {
      assert IndexFile == BuildDir + "/index.html";
    }
    assert path[..|BuildDir|] == BuildDir;
  }

  /** Only paths that start with "/api/", slash included, are left to the
      API: "/api" itself and "/apix" are served from the build. */
  lemma ApiPrefixNeedsTheSlash(fileExist: string -> bool)
    ensures ResolvePath("/api/assets", fileExist).None?
    ensures ResolvePath("/api", fileExist).Some?
    ensures ResolvePath("/apix", fileExist).Some?
  {
    assert "/api/assets"[..5] == ApiPrefix;
    assert "/apix"[..5] != ApiPrefix by { assert "/apix"[4] != ApiPrefix[4]; }
  }

  /* ----------------------------------------------------------------------
     Branding substitution
     ---------------------------------------------------------------------- */

  /** The identity-provider settings a deployment configures. */
  datatype Branding = Branding(iamEndpoint: string, clientId: string,
                               iamOrganization: string, iamApplication: string)

  /** The values the front end's build is compiled with. */
  const Shipped := Branding("https://door.casdoor.com", "b108dacba027db36ec26", "casbin", "app-hanzo-vm")

  /** A token as it appears in the build: in double quotes. */
  function Quote(token: string): (q: string)
    ensures |q| == |token| + 2 && q[0] == '"' && q[|q| - 1] == '"'
  {
    "\"" + token + "\""
  }

  /** One guarded substitution of serveFileWithReplace: when the configured
      value differs from the shipped one, every quoted shipped value becomes
      the quoted configured value. */
  function Substitute(content: string, shipped: string, configured: string): string
  {
    if shipped != configured then ReplaceAll(content, Quote(shipped), Quote(configured)) else content
  }

  /** The substitutions of serveFileWithReplace, in their fixed order, each
      applied to the output of the one before. */
  function ReplaceTokens(content: string, configured: Branding): string
  {
    var endpoint := Substitute(content, Shipped.iamEndpoint, configured.iamEndpoint);
    var clientId := Substitute(endpoint, Shipped.clientId, configured.clientId);
    var organization := Substitute(clientId, Shipped.iamOrganization, configured.iamOrganization);
    Substitute(organization, Shipped.iamApplication, configured.iamApplication)
  }

  /** The guard only saves work: without it the substitution gives the same
      content, because replacing a token by itself changes nothing. */
  lemma GuardOnlySavesWork(content: string, shipped: string, configured: string)
    ensures Substitute(content, shipped, configured) == ReplaceAll(content, Quote(shipped), Quote(configured))
  {
    if shipped == configured {
      ReplaceAllSelf(content, Quote(shipped));
    }
  }

  /** A substitution touches only the quoted tokens: the content is its
      token-free pieces joined by the quoted shipped value, and the result is
      the same pieces joined by the quoted configured value. */
  lemma SubstituteKeepsTextBetweenTokens(content: string, shipped: string, configured: string)
    returns (pieces: seq<string>)
    ensures content == Join(pieces, Quote(shipped))
    ensures Substitute(content, shipped, configured) == Join(pieces, Quote(configured))
    ensures forall k :: 0 <= k < |pieces| ==> !Contains(pieces[k], Quote(shipped))
  {
    pieces := Split(content, Quote(shipped));
    JoinSplit(content, Quote(shipped));
    SplitPiecesFree(content, Quote(shipped));
    GuardOnlySavesWork(content, shipped, configured);
    ReplaceAllIsJoinSplit(content, Quote(shipped), Quote(configured));
  }

  /** A quoted token never occurs in content without a double quote. */
  lemma QuotedAbsentWithoutQuotes(content: string, token: string)
    requires '"' !in content
    ensures Absent(content, Quote(token))
  {
    forall j | OccursAt(content, Quote(token), j) ensures false {
    }
  }

  /** Content with no double quote at all is served unchanged, whatever is
      configured: unquoted occurrences of the shipped values are left alone. */
  lemma UnquotedContentIsUnchanged(content: string, configured: Branding)
    requires '"' !in content
    ensures ReplaceTokens(content, configured) == content
  {
    QuotedAbsentWithoutQuotes(content, Shipped.iamEndpoint);
    QuotedAbsentWithoutQuotes(content, Shipped.clientId);
    QuotedAbsentWithoutQuotes(content, Shipped.iamOrganization);
    QuotedAbsentWithoutQuotes(content, Shipped.iamApplication);
    ReplaceAllAbsent(content, Quote(Shipped.iamEndpoint), Quote(configured.iamEndpoint));
    ReplaceAllAbsent(content, Quote(Shipped.clientId), Quote(configured.clientId));
    ReplaceAllAbsent(content, Quote(Shipped.iamOrganization), Quote(configured.iamOrganization));
    ReplaceAllAbsent(content, Quote(Shipped.iamApplication), Quote(configured.iamApplication));
  }

  /** Configured with the shipped values, the content is served unchanged. */
  lemma ShippedBrandingChangesNothing(content: string)
    ensures ReplaceTokens(content, Shipped) == content
  {
  }

  /** The substitutions form a chain: an endpoint configured as the shipped
      client id is then rewritten by the client id substitution. */
  lemma SubstitutionsApplyInOrder(clientId: string)
    requires clientId != Shipped.clientId
    ensures ReplaceTokens(Quote(Shipped.iamEndpoint),
                          Branding(Shipped.clientId, clientId, Shipped.iamOrganization, Shipped.iamApplication))
            == Quote(clientId)
  {
    assert Shipped.iamEndpoint != Shipped.clientId by {
      assert |Shipped.iamEndpoint| != |Shipped.clientId|;
    }
    ReplaceAllWhole(Quote(Shipped.iamEndpoint), Quote(Shipped.clientId));
    ReplaceAllWhole(Quote(Shipped.clientId), Quote(clientId));
  }

  /* ----------------------------------------------------------------------
     The filter
     ---------------------------------------------------------------------- */

  /** A served file: its path and the content written to the response. */
  datatype Response = Response(path: string, content: string)

  /** TransparentStatic followed by serveFileWithReplace, with the file
      system given by `fileExist` and `readString`. */
  function TransparentStatic(urlPath: string, fileExist: string -> bool, readString: string -> string,
                             configured: Branding): (r: Option<Response>)
    ensures r.None? <==> HasPrefix(urlPath, ApiPrefix)
    ensures r.Some? ==> r.value.path == IndexFile ||
                        (fileExist(r.value.path) && r.value.path == BuildDir + urlPath)
    ensures r.Some? && configured == Shipped ==> r.value.content == readString(r.value.path)
  {
    match ResolvePath(urlPath, fileExist)
    case None => None
    case Some(path) => Some(Response(path, ReplaceTokens(readString(path), configured)))
  }
}
