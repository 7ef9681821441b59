/**
  The two endpoints of the Flask backend, as functions from an already
  parsed request to the JSON response and its HTTP status.

  The work done by foreign libraries (`rembg.remove`, base64 and PIL) is
  a record of functions, `Imaging`, passed in by the caller: each may
  raise, and a raised exception becomes the 500 answer of the handler's
  `except Exception` clause. What the model fixes is everything around
  those calls: which checks run, in which order, with which message.
*/
module Backend {
  import opened Optional
  import opened PyStr
  import Color

  type Byte = b: int | 0 <= b < 256

  /** The upload limit: ten mebibytes. */
  const MaxFileSize: nat := 10 * 1024 * 1024

  /** The alphabet of base64 text (section 4 of RFC 4648), with the `=` pad. */
  predicate IsBase64Char(c: char) {
    'A' <= c <= 'Z' || 'a' <= c <= 'z' || '0' <= c <= '9' || c == '+' || c == '/' || c == '='
  }

  predicate IsBase64Text(s: string) {
    forall i :: 0 <= i < |s| ==> IsBase64Char(s[i])
  }

  /** What `base64.b64encode(...).decode('utf-8')` can produce. */
  type Base64Text = s: string | IsBase64Text(s) witness ""

  /** The result of a foreign call: its value, or the text of the exception it raised. */
  datatype Outcome<T> = Ok(value: T) | Raised(message: string)

  /** The color handed to `Image.new('RGBA', size, rgb + (255,))`. */
  datatype Fill = Fill(red: int, green: int, blue: int, alpha: int)

  /**
    The foreign calls, each of which may raise:
    - `remove`:  `rembg.remove` on the uploaded bytes;
    - `encode`:  `base64.b64encode(...).decode('utf-8')`, which cannot fail;
    - `load`:    `base64.b64decode`, `Image.open` and `.convert('RGBA')` on a payload;
    - `fill`:    `Image.new('RGBA', foreground.size, color)`;
    - `fit`:     `background.resize(foreground.size, LANCZOS)`;
    - `flatten`: `Image.alpha_composite(background, foreground)`, `.convert('RGB')`, save as PNG.
  */
  datatype Imaging<!Picture> = Imaging(
    remove: seq<Byte> -> Outcome<seq<Byte>>,
    encode: seq<Byte> -> Base64Text,
    load: string -> Outcome<Picture>,
    fill: (Picture, Fill) -> Outcome<Picture>,
    fit: (Picture, Picture) -> Outcome<Picture>,
    flatten: (Picture, Picture) -> Outcome<seq<Byte>>)

  /** The JSON body: `{'success': True, 'image': ...}` or `{'error': ...}`. */
  datatype Body = Success(image: string) | Failure(error: string)

  datatype Response = Response(status: nat, body: Body)

  function BadRequest(message: string): Response { Response(400, Failure(message)) }

  function ServerError(message: string): Response { Response(500, Failure(message)) }

  const DataUriPrefix: string := "data:image/png;base64,"

  /**
    The text after the first comma of `DataUriPrefix + b64` is `b64` again:
    the prefix's only comma is its last character and base64 text has none.
  */
  lemma {:induction false} DataUriRoundTrip(b64: Base64Text)
    ensures ',' in DataUriPrefix + b64
    ensures SplitTail(DataUriPrefix + b64, ',') == b64
  {
    var head := "data:image/png;base64";
    assert DataUriPrefix == head + [','];
    assert ',' !in head;
    SplitAfterFirst(head, ',', b64);
  }

  /** The success answer for an encoded PNG: status 200 and a data URI whose payload is `b64`. */
  function Succeed(b64: Base64Text): (r: Response)
    ensures r.status == 200 && r.body.Success?
    ensures r.body.image == DataUriPrefix + b64
    ensures ',' in r.body.image && SplitTail(r.body.image, ',') == b64
  {
    DataUriRoundTrip(b64);
    Response(200, Success(DataUriPrefix + b64))
  }

  // ---------------------------------------------------------------------
  // POST /api/remove-background
  // ---------------------------------------------------------------------

  /** A part of a multipart upload: the client's file name and the bytes sent. */
  datatype Upload = Upload(filename: string, content: seq<Byte>)

  const NoImage: string := "No image provided"
  const NoSelection: string := "No image selected"
  const TooLarge: string := "File too large. Maximum size is " + Decimal(MaxFileSize / (1024 * 1024)) + "MB"

  /** The size limit is printed as whole mebibytes. */
  lemma TooLargeText()
    ensures TooLarge == "File too large. Maximum size is 10MB"
  {
    assert MaxFileSize / (1024 * 1024) == 10;
    assert Decimal(10) == Decimal(1) + [DecimalDigit(0)];
  }

  /**
    `remove_background`: the `image` part must be there, carry a file name
    and hold at most `MaxFileSize` bytes; then the background is removed
    and the PNG sent back as a data URI.
  */
  function RemoveBackground<P>(files: map<string, Upload>, lib: Imaging<P>): (r: Response)
    ensures r.status == 200 <==>
      "image" in files && files["image"].filename != "" &&
      |files["image"].content| <= MaxFileSize && lib.remove(files["image"].content).Ok?
    ensures r.status == 200 ==>
      r.body.Success? && ',' in r.body.image &&
      SplitTail(r.body.image, ',') == lib.encode(lib.remove(files["image"].content).value)
    ensures r.status == 200 ==> r == Succeed(lib.encode(lib.remove(files["image"].content).value))
    ensures r.status != 200 ==> r.body.Failure? && (r.status == 400 || r.status == 500)
    ensures
      var raised := "image" in files && files["image"].filename != "" &&
        |files["image"].content| <= MaxFileSize && lib.remove(files["image"].content).Raised?;
      raised ==> r == ServerError(lib.remove(files["image"].content).message)
  {
    if "image" !in files then BadRequest(NoImage)
    else
      var file := files["image"];
      if file.filename == "" then BadRequest(NoSelection)
      else if |file.content| > MaxFileSize then BadRequest(TooLarge)
      else
        match lib.remove(file.content)
        case Raised(e) => ServerError(e)
        case Ok(png) => Succeed(lib.encode(png))
  }

  /** Each 400 answer of `remove_background` says exactly which of the ordered checks failed first. */
  lemma RemoveBackgroundRejections<P>(files: map<string, Upload>, lib: Imaging<P>)
    ensures RemoveBackground(files, lib) == BadRequest(NoImage) <==> "image" !in files
    ensures RemoveBackground(files, lib) == BadRequest(NoSelection) <==>
      "image" in files && files["image"].filename == ""
    ensures RemoveBackground(files, lib) == BadRequest(TooLarge) <==>
      "image" in files && files["image"].filename != "" && |files["image"].content| > MaxFileSize
  {
    TooLargeText();
  }

  /** The size limit is inclusive: a file of exactly `MaxFileSize` bytes reaches `rembg.remove`. */
  lemma SizeLimitInclusive<P>(name: string, content: seq<Byte>, lib: Imaging<P>)
    requires name != "" && |content| == MaxFileSize
    ensures RemoveBackground(map["image" := Upload(name, content)], lib).status == 200 <==> lib.remove(content).Ok?
    ensures RemoveBackground(map["image" := Upload(name, content)], lib) != BadRequest(TooLarge)
  {
  }

  // ---------------------------------------------------------------------
  // POST /api/add-background
  // ---------------------------------------------------------------------

  /** A member of the JSON request: missing, `null`, or a string. */
  datatype Field = Absent | Null | Text(text: string)

  /** The JSON object posted to the endpoint. */
  datatype AddRequest = AddRequest(foreground: Field, backgroundColor: Field, backgroundImage: Field)

  /** `key in data and data[key]`: present and a non-empty string. */
  predicate Truthy(f: Field) {
    f.Text? && f.text != ""
  }

  const NoForeground: string := "No foreground image provided"
  const InvalidForeground: string := "Invalid foreground image format"
  const InvalidColorFormat: string := "Invalid color format. Use #RGB or #RRGGBB"
  const InvalidHex: string := "Invalid hex color value"
  const InvalidBackground: string := "Invalid background image format"
  const NoBackground: string := "No background color or image provided"
  /** What Python says when `',' in None` is evaluated. */
  const NoneNotIterable: string := "argument of type 'NoneType' is not iterable"

  /** The background the handler goes on to build: the color wins over the image. */
  datatype Choice = ColorChoice(color: string) | ImageChoice(image: string) | NoChoice

  function ChooseBackground(req: AddRequest): (c: Choice)
    ensures c.ColorChoice? <==> Truthy(req.backgroundColor)
    ensures c.ImageChoice? <==> !Truthy(req.backgroundColor) && Truthy(req.backgroundImage)
    ensures c.ColorChoice? ==> c.color == req.backgroundColor.text
    ensures c.ImageChoice? ==> c.image == req.backgroundImage.text
  {
    if Truthy(req.backgroundColor) then ColorChoice(req.backgroundColor.text)
    else if Truthy(req.backgroundImage) then ImageChoice(req.backgroundImage.text)
    else NoChoice
  }

  /** The foreground passes the key and comma checks and its payload decodes to a picture. */
  predicate ForegroundLoads<P>(req: AddRequest, lib: Imaging<P>) {
    req.foreground.Text? && ',' in req.foreground.text &&
    lib.load(SplitTail(req.foreground.text, ',')).Ok?
  }

  /** Composite onto a background, if building it succeeded, and answer with the encoded PNG. */
  function Composite<P>(lib: Imaging<P>, background: Outcome<P>, foreground: P): (r: Response)
    ensures r.status == 200 <==> background.Ok? && lib.flatten(background.value, foreground).Ok?
    ensures r.status == 200 ==>
      r.body.Success? && ',' in r.body.image &&
      SplitTail(r.body.image, ',') == lib.encode(lib.flatten(background.value, foreground).value)
    ensures r.status == 200 ==> r == Succeed(lib.encode(lib.flatten(background.value, foreground).value))
    ensures r.status != 200 ==> r.status == 500 && r.body.Failure?
    ensures background.Raised? ==> r == ServerError(background.message)
    ensures background.Ok? && lib.flatten(background.value, foreground).Raised? ==>
      r == ServerError(lib.flatten(background.value, foreground).message)
  {
    match background
    case Raised(e) => ServerError(e)
    case Ok(bg) =>
      match lib.flatten(bg, foreground)
      case Raised(e) => ServerError(e)
      case Ok(png) => Succeed(lib.encode(png))
  }

  /**
    `add_background`: the foreground must be present and hold a comma, and
    its payload must decode, before the background is looked at. A
    non-empty color then takes precedence over an image.
  */
  function AddBackground<P>(req: AddRequest, lib: Imaging<P>): (r: Response)
    ensures r.status == 200 ==>
      ForegroundLoads(req, lib) && (Truthy(req.backgroundColor) || Truthy(req.backgroundImage))
    ensures r.status == 200 ==> r.body.Success? && ',' in r.body.image && IsBase64Text(SplitTail(r.body.image, ','))
    ensures r.status != 200 ==> r.body.Failure? && (r.status == 400 || r.status == 500)
    ensures req.foreground.Null? ==> r == ServerError(NoneNotIterable)
    ensures req.foreground.Text? && ',' in req.foreground.text && lib.load(SplitTail(req.foreground.text, ',')).Raised? ==>
      r == ServerError(lib.load(SplitTail(req.foreground.text, ',')).message)
  {
    match req.foreground
    case Absent => BadRequest(NoForeground)
    case Null => ServerError(NoneNotIterable)
    case Text(fg) =>
      if ',' !in fg then BadRequest(InvalidForeground)
      else
        match lib.load(SplitTail(fg, ','))
        case Raised(e) => ServerError(e)
        case Ok(foreground) =>
          match ChooseBackground(req)
          case ColorChoice(color) =>
            (match Color.ParseColor(color)
             case BadFormat => BadRequest(InvalidColorFormat)
             case BadHex => BadRequest(InvalidHex)
             case Rgb(red, green, blue) => Composite(lib, lib.fill(foreground, Fill(red, green, blue, 255)), foreground))
          case ImageChoice(image) =>
            if ',' !in image then BadRequest(InvalidBackground)
            else
              (match lib.load(SplitTail(image, ','))
               case Raised(e) => ServerError(e)
               case Ok(background) => Composite(lib, lib.fit(background, foreground), foreground))
          case NoChoice => BadRequest(NoBackground)
  }

  /** Each 400 answer of `add_background` says exactly which of the ordered checks failed first. */
  lemma AddBackgroundRejections<P>(req: AddRequest, lib: Imaging<P>)
    ensures AddBackground(req, lib) == BadRequest(NoForeground) <==> req.foreground.Absent?
    ensures AddBackground(req, lib) == BadRequest(InvalidForeground) <==>
      req.foreground.Text? && ',' !in req.foreground.text
    ensures AddBackground(req, lib) == BadRequest(InvalidColorFormat) <==>
      ForegroundLoads(req, lib) && Truthy(req.backgroundColor) && !Color.WellFormed(req.backgroundColor.text)
    ensures AddBackground(req, lib) == BadRequest(InvalidHex) <==>
      ForegroundLoads(req, lib) && Truthy(req.backgroundColor) && Color.ParseColor(req.backgroundColor.text) == Color.BadHex
    ensures AddBackground(req, lib) == BadRequest(InvalidBackground) <==>
      ForegroundLoads(req, lib) && !Truthy(req.backgroundColor) && Truthy(req.backgroundImage) &&
      ',' !in req.backgroundImage.text
    ensures AddBackground(req, lib) == BadRequest(NoBackground) <==>
      ForegroundLoads(req, lib) && !Truthy(req.backgroundColor) && !Truthy(req.backgroundImage)
  {
  }

  /** Until the foreground has been decoded, the background members are not looked at. */
  lemma ForegroundCheckedFirst<P>(req: AddRequest, lib: Imaging<P>, color: Field, image: Field)
    requires !ForegroundLoads(req, lib)
    ensures AddBackground(req.(backgroundColor := color, backgroundImage := image), lib) == AddBackground(req, lib)
  {
  }

  /** With a non-empty color, the background image is ignored whatever it holds. */
  lemma ColorTakesPrecedence<P>(req: AddRequest, lib: Imaging<P>, image: Field)
    requires Truthy(req.backgroundColor)
    ensures AddBackground(req.(backgroundImage := image), lib) == AddBackground(req, lib)
  {
  }

  /**
    Once the foreground has loaded, a color that parses fills the
    background with its three components and full opacity, and the answer
    is the composite onto it.
  */
  lemma ColorComposites<P>(req: AddRequest, lib: Imaging<P>, red: int, green: int, blue: int)
    requires ForegroundLoads(req, lib) && Truthy(req.backgroundColor)
    requires Color.ParseColor(req.backgroundColor.text) == Color.Rgb(red, green, blue)
    ensures
      var fg := lib.load(SplitTail(req.foreground.text, ',')).value;
      AddBackground(req, lib) == Composite(lib, lib.fill(fg, Fill(red, green, blue, 255)), fg)
  {
  }

  /**
    Once the foreground has loaded and no color is given, an image member
    holding a comma is read from the text after its first comma, fitted to
    the foreground's size, and the foreground is composited over it.
  */
  lemma ImageComposites<P>(req: AddRequest, lib: Imaging<P>)
    requires ForegroundLoads(req, lib) && !Truthy(req.backgroundColor)
    requires Truthy(req.backgroundImage) && ',' in req.backgroundImage.text
    ensures
      var fg := lib.load(SplitTail(req.foreground.text, ',')).value;
      var bg := lib.load(SplitTail(req.backgroundImage.text, ','));
      AddBackground(req, lib) == (if bg.Raised? then ServerError(bg.message) else Composite(lib, lib.fit(bg.value, fg), fg))
  {
  }

  /**
    The image that `remove_background` answers with is accepted as a
    foreground by `add_background`: it holds a comma, and what is decoded
    is exactly the base64 text of the PNG that was produced.
  */
  lemma RemovedImageIsForeground<P>(files: map<string, Upload>, lib: Imaging<P>, color: Field, image: Field)
    requires RemoveBackground(files, lib).status == 200
    ensures
      var sent := RemoveBackground(files, lib).body.image;
      var req := AddRequest(Text(sent), color, image);
      AddBackground(req, lib) != BadRequest(NoForeground) &&
      AddBackground(req, lib) != BadRequest(InvalidForeground) &&
      (ForegroundLoads(req, lib) <==> lib.load(lib.encode(lib.remove(files["image"].content).value)).Ok?)
  {
    var sent := RemoveBackground(files, lib).body.image;
    assert ',' in sent;
    AddBackgroundRejections(AddRequest(Text(sent), color, image), lib);
  }
}
