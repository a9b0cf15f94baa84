/**
 * The try-on dispatcher `VirtualTryOnApp`: scene resolution, the credential
 * check, the request to the remote try-on service and the dispatch on its
 * answer, and the local flat-lay composition. Everything outside the program
 * -- the service's answer, the images' decoded sizes, the background-removal
 * step and every exception these raise -- arrives as a parameter; what the
 * program sends and writes is returned, so that "nothing was sent" and "no
 * file was written" can be stated.
 */
module TryOn {
  import opened Wrappers
  import Text
  import Naming
  import Catalog
  import Geometry

  newtype byte = x: int | 0 <= x < 256

  const ApiHost: string := "try-on-diffusion.p.rapidapi.com"
  const ApiUrl: string := "https://" + ApiHost + "/try-on-file"

  /** The multipart POST: the two uploaded files and the two RapidAPI headers. */
  datatype Request = Request(url: string, clothingImage: string, avatarImage: string, key: string, host: string)

  /**
   * How the request went: an exception opening the garment or scene file for
   * upload (before anything is sent), the service's answer, or an exception
   * raised while posting or saving.
   */
  datatype Exchange =
    | UploadUnreadable(message: string)
    | Responded(status: int, text: string, content: seq<byte>)
    | Raised(message: string)

  /** What a saved result file holds. */
  datatype Artifact =
    | Bytes(content: seq<byte>)
    | FlatLay(background: string, garment: string, placement: Geometry.Placement)

  datatype Written = Written(path: string, artifact: Artifact)

  /** An opened image: its size, or the text of the exception opening it raised. */
  datatype Load = Loaded(width: nat, height: nat) | Failed(message: string)

  /** What the flat-lay path meets outside the program. */
  datatype FlatLayWorld = FlatLayWorld(
    rembgInstalled: bool,
    background: Load,
    garment: Load,
    cutOut: Load,
    imagingFault: Option<string>)

  /** The `(output_path, error)` pair every entry point returns. */
  type Outcome = (Option<string>, Option<string>)

  predicate ExactlyOne(o: Outcome) { o.0.Some? != o.1.Some? }

  const MissingKeyError: string := "Error: RAPIDAPI_KEY not found."
  const NotInstalledError: string := "Error: 'rembg' or 'Pillow' not installed."

  /** The error names the unknown category after a fixed prefix. */
  function NoAssetsError(category: string): (m: string)
    ensures |m| == 30 + |category| && m[..30] == "No assets found for category: " && m[30..] == category
  {
    Text.ThreeParts("No assets found for category: ", category, "");
    "No assets found for category: " + category
  }

  /** The error carries the rendered status and ends with the response text. */
  function ApiError(status: int, text: string): (m: string)
    ensures |m| > 14 + |text| && m[..11] == "API Error (" && m[|m| - |text|..] == text
    ensures var r := Text.IntToString(status);
            && |m| == 14 + |r| + |text|
            && m[11..11 + |r|] == r
            && m[11 + |r|..14 + |r|] == "): "
  {
    FourParts("API Error (", Text.IntToString(status), "): ", text);
    "API Error (" + Text.IntToString(status) + "): " + text
  }

  /** Slicing a four-part concatenation gives back each part. */
  lemma FourParts(p: string, r: string, q: string, t: string)
    ensures var s := p + r + q + t;
            && |s| == |p| + |r| + |q| + |t|
            && s[..|p|] == p
            && s[|p|..|p| + |r|] == r
            && s[|p| + |r|..|p| + |r| + |q|] == q
            && s[|s| - |t|..] == t
  {
  }

  /** The exception's text after a fixed prefix. */
  function ExceptionError(message: string): (m: string)
    ensures |m| == 11 + |message| && m[..11] == "Exception: " && m[11..] == message
  {
    Text.ThreeParts("Exception: ", message, "");
    "Exception: " + message
  }

  /** The removal failure's text between a fixed prefix and a fixed advice. */
  function RemovalError(message: string): (m: string)
    ensures |m| == 57 + |message|
    ensures m[..27] == "Background removal failed: "
    ensures m[27..|m| - 30] == message
    ensures m[|m| - 30..] == ". Ensure 'rembg' is installed."
  {
    Text.ThreeParts("Background removal failed: ", message, ". Ensure 'rembg' is installed.");
    "Background removal failed: " + message + ". Ensure 'rembg' is installed."
  }

  /** The flat-lay exception's text after a fixed prefix. */
  function FlatLayError(message: string): (m: string)
    ensures |m| == 23 + |message| && m[..23] == "Exception in flat lay: " && m[23..] == message
  {
    Text.ThreeParts("Exception in flat lay: ", message, "");
    "Exception in flat lay: " + message
  }

  /**
   * The shell shows messages verbatim; messages of different kinds never
   * coincide, whatever they carry.
   */
  lemma ErrorKindsDistinct(category: string, status: int, text: string, message: string)
    ensures MissingKeyError != NoAssetsError(category)
    ensures MissingKeyError != ApiError(status, text)
    ensures MissingKeyError != ExceptionError(message)
    ensures NoAssetsError(category) != ApiError(status, text)
    ensures NoAssetsError(category) != ExceptionError(message)
    ensures ApiError(status, text) != ExceptionError(message)
  {
    NoAssetsErrorHead(category);
    ApiErrorHead(status, text);
    ExceptionErrorHead(message);
    MissingKeyErrorHead();
    HeadsDiffer(MissingKeyError, NoAssetsError(category), ApiError(status, text), ExceptionError(message));
  }

  /** Four strings told apart by their first two characters. */
  lemma HeadsDiffer(k: string, n: string, a: string, e: string)
    requires |k| > 1 && |n| > 1 && |a| > 1 && |e| > 1
    requires k[0] == 'E' && k[1] == 'r' && n[0] == 'N' && a[0] == 'A' && e[0] == 'E' && e[1] == 'x'
    ensures k != n && k != a && k != e && n != a && n != e && a != e
  {
  }

  lemma MissingKeyErrorHead()
    ensures |MissingKeyError| > 1 && MissingKeyError[0] == 'E' && MissingKeyError[1] == 'r'
  {
  }

  /** The first characters of each message kind, which tell the kinds apart. */
  lemma NoAssetsErrorHead(category: string)
    ensures |NoAssetsError(category)| > 1 && NoAssetsError(category)[0] == 'N'
  {
    LeadingPair(NoAssetsError(category), "No assets found for category: ");
  }

  lemma ApiErrorHead(status: int, text: string)
    ensures |ApiError(status, text)| > 1 && ApiError(status, text)[0] == 'A'
  {
    LeadingPair(ApiError(status, text), "API Error (");
  }

  lemma ExceptionErrorHead(message: string)
    ensures |ExceptionError(message)| > 1 && ExceptionError(message)[0] == 'E' && ExceptionError(message)[1] == 'x'
  {
    LeadingPair(ExceptionError(message), "Exception: ");
  }

  /** A message that starts with `prefix` shares its first two characters. */
  lemma LeadingPair(m: string, prefix: string)
    requires 2 <= |prefix| <= |m| && m[..|prefix|] == prefix
    ensures m[0] == prefix[0] && m[1] == prefix[1]
  {
    assert m[0] == m[..|prefix|][0] && m[1] == m[..|prefix|][1];
  }

  /** The status rendering in an API error message ends where the first ')' stands. */
  lemma ApiErrorStatusPrefix(s1: int, t1: string, s2: int, t2: string)
    requires ApiError(s1, t1) == ApiError(s2, t2)
    ensures |Text.IntToString(s1)| <= |Text.IntToString(s2)|
  {
    var a, b := Text.IntToString(s1), Text.IntToString(s2);
    var m := ApiError(s1, t1);
    assert m == "API Error (" + a + "): " + t1;
    assert m == "API Error (" + b + "): " + t2;
    if |b| < |a| {
      assert m[11 + |b|] == ')' && m[11 + |b|] == a[|b|];
      Text.DigitAfterSign(s1, |b|);
      assert false;
    }
  }

  /** Two framings `p + a + q + t` with equally long middles agree part by part. */
  lemma FramedParts(p: string, a: string, q: string, t1: string, b: string, t2: string)
    requires p + a + q + t1 == p + b + q + t2 && |a| == |b|
    ensures a == b && t1 == t2
  {
    var m := p + a + q + t1;
    assert a == m[|p|..|p| + |a|] && b == (p + b + q + t2)[|p|..|p| + |b|];
    assert t1 == m[|p| + |a| + |q|..] && t2 == (p + b + q + t2)[|p| + |b| + |q|..];
  }

  /** An API error message determines the status code and the response text it reports. */
  lemma ApiErrorIdentifies(s1: int, t1: string, s2: int, t2: string)
    requires ApiError(s1, t1) == ApiError(s2, t2)
    ensures s1 == s2 && t1 == t2
  {
    ApiErrorStatusPrefix(s1, t1, s2, t2);
    ApiErrorStatusPrefix(s2, t2, s1, t1);
    FramedParts("API Error (", Text.IntToString(s1), "): ", t1, Text.IntToString(s2), t2);
    Text.IntToStringInjective(s1, s2);
  }

  class VirtualTryOnApp {
    const apiKey: Option<string>
    const assets: Catalog.Assets

    /** The key comes from configuration (left out); the asset table is fixed. */
    constructor(apiKey: Option<string>)
      ensures this.apiKey == apiKey && assets == Catalog.DefaultAssets
    {
      this.apiKey := apiKey;
      assets := Catalog.DefaultAssets;
    }

    /** `not self.api_key` is false: a key is present and non-empty. */
    predicate HasKey()
      ensures !HasKey() <==> apiKey == None || apiKey == Some("")
    {
      apiKey.Some? && apiKey.value != ""
    }

    /**
     * `generate_tryon`: resolve the scene, then hand it to the remote path.
     * A category without scenes fails before anything is sent.
     */
    method GenerateTryOn(garmentPath: string, category: string, backgroundName: Option<string>, exchange: Exchange)
      returns (outcome: Outcome, sent: Option<Request>, written: Option<Written>)
      ensures ExactlyOne(outcome)
      ensures Catalog.Options(assets, category) == [] ==>
        outcome == (None, Some(NoAssetsError(category))) && sent == None && written == None
      ensures Catalog.Options(assets, category) != [] && !HasKey() ==>
        outcome == (None, Some(MissingKeyError)) && sent == None && written == None
      ensures sent.Some? <==> Catalog.Options(assets, category) != [] && HasKey() && !exchange.UploadUnreadable?
      ensures sent.Some? ==>
        sent.value.clothingImage == garmentPath && sent.value.avatarImage in Catalog.Paths(Catalog.Options(assets, category))
      ensures sent.Some? && Catalog.Requested(backgroundName) ==>
        forall i :: 0 <= i < |Catalog.Options(assets, category)| && Catalog.Options(assets, category)[i].name == backgroundName.value
          ==> sent.value.avatarImage == Catalog.Options(assets, category)[i].path
      ensures outcome.0.Some? <==> sent.Some? && exchange.Responded? && exchange.status == 200
      ensures outcome.0.Some? ==>
        outcome.0.value == Naming.OutputName(category, garmentPath) && written == Some(Written(outcome.0.value, Bytes(exchange.content)))
      ensures outcome.0.None? ==> written == None
      ensures sent.Some? && exchange.Responded? && exchange.status != 200 ==>
        outcome.1 == Some(ApiError(exchange.status, exchange.text))
      ensures Catalog.Options(assets, category) != [] && HasKey() && exchange.UploadUnreadable? ==>
        outcome == (None, Some(ExceptionError(exchange.message))) && written == None
      ensures sent.Some? && exchange.Raised? ==> outcome.1 == Some(ExceptionError(exchange.message))
    {
      var scene := Catalog.ResolveScene(assets, category, backgroundName);
      if scene.None? {
        return (None, Some(NoAssetsError(category))), None, None;
      }
      outcome, sent, written := ProcessRapidApi(garmentPath, category, scene.value, exchange);
    }

    /**
     * `_process_rapidapi`: without a key nothing is sent; otherwise the garment
     * and the scene are posted, and only a 200 answer produces a result file,
     * named after the category and the garment's stem.
     */
    method ProcessRapidApi(garmentPath: string, category: string, scenePath: string, exchange: Exchange)
      returns (outcome: Outcome, sent: Option<Request>, written: Option<Written>)
      ensures ExactlyOne(outcome)
      ensures !HasKey() ==> outcome == (None, Some(MissingKeyError)) && sent == None && written == None
      ensures HasKey() && !exchange.UploadUnreadable? ==>
        sent == Some(Request(ApiUrl, garmentPath, scenePath, apiKey.value, ApiHost))
      ensures exchange.UploadUnreadable? ==> sent == None
      ensures outcome.0.Some? <==> HasKey() && exchange.Responded? && exchange.status == 200
      ensures outcome.0.Some? ==>
        outcome.0.value == Naming.OutputName(category, garmentPath) && written == Some(Written(outcome.0.value, Bytes(exchange.content)))
      ensures outcome.0.None? ==> written == None
      ensures HasKey() && exchange.Responded? && exchange.status != 200 ==>
        outcome.1 == Some(ApiError(exchange.status, exchange.text))
      ensures HasKey() && (exchange.UploadUnreadable? || exchange.Raised?) ==>
        outcome.1 == Some(ExceptionError(exchange.message))
    {
      if !HasKey() {
        return (None, Some(MissingKeyError)), None, None;
      }
      if exchange.UploadUnreadable? {
        return (None, Some(ExceptionError(exchange.message))), None, None;
      }
      sent := Some(Request(ApiUrl, garmentPath, scenePath, apiKey.value, ApiHost));
      match exchange
      case Raised(message) =>
        outcome, written := (None, Some(ExceptionError(message))), None;
      case Responded(status, text, content) =>
        if status == 200 {
          var name := Naming.OutputName(category, garmentPath);
          outcome, written := (Some(name), None), Some(Written(name, Bytes(content)));
        } else {
          outcome, written := (None, Some(ApiError(status, text))), None;
        }
    }

    /**
     * `_process_flat_lay`: cut the garment out, scale it to 3/5 of the
     * background's width, centre it and save under the "bebe" result name.
     * Each failing step yields its own message and no file.
     */
    method ProcessFlatLay(garmentPath: string, bgPath: string, world: FlatLayWorld)
      returns (outcome: Outcome, written: Option<Written>)
      ensures ExactlyOne(outcome)
      ensures outcome.0.None? <==> written.None?
      ensures !world.rembgInstalled ==> outcome == (None, Some(NotInstalledError))
      ensures world.rembgInstalled && world.background.Failed? ==>
        outcome == (None, Some(FlatLayError(world.background.message)))
      ensures world.rembgInstalled && world.background.Loaded? && world.garment.Failed? ==>
        outcome == (None, Some(FlatLayError(world.garment.message)))
      ensures world.rembgInstalled && world.background.Loaded? && world.garment.Loaded? && world.cutOut.Failed? ==>
        outcome == (None, Some(RemovalError(world.cutOut.message)))
      ensures (world.rembgInstalled && world.background.Loaded? && world.garment.Loaded? && world.cutOut.Loaded? &&
               world.cutOut.width == 0) ==> outcome == (None, Some(FlatLayError(Text.DivisionByZero)))
      ensures (world.rembgInstalled && world.background.Loaded? && world.garment.Loaded? && world.cutOut.Loaded? &&
               world.cutOut.width > 0 && world.imagingFault.Some?) ==>
        outcome == (None, Some(FlatLayError(world.imagingFault.value)))
      ensures outcome.0.Some? <==>
        world.rembgInstalled && world.background.Loaded? && world.garment.Loaded? && world.cutOut.Loaded? &&
        world.cutOut.width > 0 && world.imagingFault.None?
      ensures outcome.0.Some? ==>
        outcome.0.value == Naming.OutputName("bebe", garmentPath) &&
        written == Some(Written(outcome.0.value, FlatLay(bgPath, garmentPath,
          Geometry.FlatLayPlacement(world.background.width, world.background.height, world.cutOut.width, world.cutOut.height))))
    {
      written := None;
      if !world.rembgInstalled {
        return (None, Some(NotInstalledError)), None;
      }
      match world.background
      case Failed(message) =>
        outcome := (None, Some(FlatLayError(message)));
      case Loaded(bgW, bgH) =>
        match world.garment
        case Failed(message) =>
          outcome := (None, Some(FlatLayError(message)));
        case Loaded(_, _) =>
          match world.cutOut
          case Failed(message) =>
            outcome := (None, Some(RemovalError(message)));
          case Loaded(w, h) =>
            if w == 0 {
              outcome := (None, Some(FlatLayError(Text.DivisionByZero)));
            } else if world.imagingFault.Some? {
              outcome := (None, Some(FlatLayError(world.imagingFault.value)));
            } else {
              var name := Naming.OutputName("bebe", garmentPath);
              outcome := (Some(name), None);
              written := Some(Written(name, FlatLay(bgPath, garmentPath, Geometry.FlatLayPlacement(bgW, bgH, w, h))));
            }
    }
  }

  /** A request for a listed scene of a known category sends exactly that scene's image. */
  method ListedSceneIsSent(app: VirtualTryOnApp, garmentPath: string, category: string, k: nat, exchange: Exchange)
    returns (sent: Option<Request>)
    requires k < |Catalog.Options(app.assets, category)|
    requires Catalog.Options(app.assets, category)[k].name != ""
    ensures app.HasKey() && !exchange.UploadUnreadable? ==>
      sent.Some? && sent.value.avatarImage == Catalog.Options(app.assets, category)[k].path
    ensures !app.HasKey() || exchange.UploadUnreadable? ==> sent.None?
  {
    var name := Catalog.BackgroundOptions(app.assets, category)[k];
    var _, s, _ := app.GenerateTryOn(garmentPath, category, Some(name), exchange);
    sent := s;
  }
}
