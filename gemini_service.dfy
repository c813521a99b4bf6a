/**
 * The generation service: how prompts and request parts are assembled for the
 * Gemini models, and how their answers are turned into captions and image URLs.
 * The calls to the SDK are not modelled: what a call returned (or that it threw)
 * is a parameter of the operation that handles it.
 */
module GeminiService {
  import opened Basics
  import opened JsStrings
  import opened Types

  /** The inline payload of a part. */
  datatype InlineData = InlineData(mimeType: string, data: string)

  /** A content part of a request or of a response; either field may be absent. */
  datatype Part = Part(text: Option<string>, inlineData: Option<InlineData>)

  function TextPart(text: string): Part { Part(Some(text), None) }

  function PngPart(data: string): Part { Part(None, Some(InlineData("image/png", data))) }

  /** One candidate answer of the image model. */
  datatype Candidate = Candidate(parts: seq<Part>)

  /** What an image-model call delivered: it threw, or it answered with candidates. */
  datatype ImageReply = ImageCallFailed(detail: string) | ImageResponse(candidates: seq<Candidate>)

  /** What a text-model call delivered: it threw, or it answered with `response.text` (the empty
      string standing also for an absent text) and with what `JSON.parse` makes of that text
      (`None` when the parse throws). */
  datatype TextReply = TextCallFailed(detail: string) | TextResponse(text: string, parsed: Option<GeneratedPanelData>)

  /** What the image-analysis call delivered: it threw, or it answered with an optional text. */
  datatype AnalysisReply = AnalysisCallFailed(detail: string) | AnalysisResponse(text: Option<string>)

  /** Why a service operation failed. */
  datatype ServiceError =
    | RequestFailed(detail: string)   // the SDK call threw
    | MissingCandidate                // `response.candidates[0]` does not exist
    | NoImageData(message: string)    // no part of the first candidate carries inline data
    | NoTextResponse                  // the text stage answered with no text
    | MalformedJson                   // the text stage's answer is not JSON

  // ---------------------------------------------------------------------------
  // Style table

  const ComicBookPrompt: string := "Modern American comic book style, bold lines, vibrant colors, dynamic shading"

  /** The styles that have a line of their own in the style table. */
  predicate HasOwnStylePrompt(style: ComicStyle)
  {
    style.Anime? || style.Realistic? || style.BlackWhite? || style.Watercolor? || style.Pixel?
  }

  const AnimePrompt: string := "Anime style, cel shaded, vibrant, Studio Ghibli inspired details"
  const RealisticPrompt: string := "Cinematic realistic photography, 8k, highly detailed, dramatic lighting"
  const NoirPrompt: string := "Noir comic style, black and white, high contrast ink lines, Sin City style"
  const WatercolorPrompt: string := "Watercolor painting style, soft edges, artistic, pastel colors"
  const PixelPrompt: string := "Pixel art style, 16-bit retro game aesthetic"

  /** The prose an image prompt uses for a style keyword. */
  function StylePrompt(style: ComicStyle): (r: string)
    ensures r != ""
    ensures !HasOwnStylePrompt(style) ==> r == ComicBookPrompt
  {
    match style
    case Anime => AnimePrompt
    case Realistic => RealisticPrompt
    case BlackWhite => NoirPrompt
    case Watercolor => WatercolorPrompt
    case Pixel => PixelPrompt
    case _ => ComicBookPrompt
  }

  // ---------------------------------------------------------------------------
  // Character context

  /** The `name: description` line of one character. */
  function ContextLine(c: Character): string
  {
    c.name + ": " + c.description
  }

  /** `characters.map(c => `${c.name}: ${c.description}`)`. */
  function ContextLines(characters: seq<Character>): (lines: seq<string>)
    ensures |lines| == |characters|
    ensures forall i :: 0 <= i < |lines| ==> lines[i] == ContextLine(characters[i])
  {
    seq(|characters|, i requires 0 <= i < |characters| => ContextLine(characters[i]))
  }

  /** The character context of a panel-text request: the context lines joined by newlines. It is
      empty exactly when there is no character, and a single character gives its line alone. */
  function CharContext(characters: seq<Character>): (context: string)
    ensures context == "" <==> characters == []
    ensures |characters| == 1 ==> context == ContextLine(characters[0])
  {
    var lines := ContextLines(characters);
    assert characters != [] ==> |lines[0]| >= 2;
    Join(lines, '\n')
  }

  /** No character gives the empty context; otherwise, as long as names and descriptions hold no
      newline, the context splits at its newlines into exactly one line per character, in order. */
  lemma CharContextLines(characters: seq<Character>)
    requires forall c :: c in characters ==> '\n' !in c.name && '\n' !in c.description
    ensures characters == [] ==> CharContext(characters) == ""
    ensures characters != [] ==> Split(CharContext(characters), '\n') == ContextLines(characters)
  {
    var lines := ContextLines(characters);
    forall k | 0 <= k < |lines| ensures '\n' !in lines[k] {
      assert characters[k] in characters;
    }
    if characters != [] {
      SplitJoin(lines, '\n');
    }
  }

  // ---------------------------------------------------------------------------
  // Panel text stage

  /** The arguments of `generatePanelTextData`: the scene, the characters in it, the style. */
  datatype PanelTextCall = PanelTextCall(scene: string, characters: seq<Character>, style: ComicStyle)

  /** The two prompts sent to the text model. */
  datatype TextRequest = TextRequest(systemInstruction: string, userPrompt: string)

  const SystemHead: string := "\n    Ești un regizor și scenarist de benzi desenate expert.\n    Stilul vizual selectat este: "
  const SystemMid: string := ".\n    \n    Returnează un JSON cu:\n    1. 'caption': O scurtă narațiune sau replică de dialog în limba ROMÂNĂ.\n    2. 'imagePrompt': Un prompt vizual detaliat în ENGLEZĂ. \n       Acesta TREBUIE să includă descrierea fizică a personajelor selectate ("
  const SystemStyle: string := ").\n       Specifică stilul artistic: "
  const SystemTail: string := ".\n  "
  const UserHead: string := "\n    Personaje prezente în scenă:\n    "
  const UserMid: string := "\n\n    Acțiunea dorită:\n    "
  const UserTail: string := "\n  "

  /** The request of the text stage: the system instruction names the style keyword, the character
      context and the style prose; the user prompt carries the character context and the scene. */
  function PanelTextRequest(scene: string, characters: seq<Character>, style: ComicStyle): (r: TextRequest)
    ensures Includes(r.systemInstruction, StyleKeyword(style))
    ensures Includes(r.systemInstruction, CharContext(characters))
    ensures Includes(r.systemInstruction, StylePrompt(style))
    ensures Includes(r.userPrompt, CharContext(characters))
    ensures Includes(r.userPrompt, scene)
  {
    var context := CharContext(characters);
    var system := [SystemHead, StyleKeyword(style), SystemMid, context, SystemStyle, StylePrompt(style), SystemTail];
    var user := [UserHead, context, UserMid, scene, UserTail];
    TemplateIncludes(system, 1);
    TemplateIncludes(system, 3);
    TemplateIncludes(system, 5);
    TemplateIncludes(user, 1);
    TemplateIncludes(user, 3);
    TextRequest(Template(system), Template(user))
  }

  /** The outcome of the text stage: the parsed panel data, unless the call threw, the answer had
      no text, or the text did not parse. */
  function PanelTextResult(reply: TextReply): (r: Result<GeneratedPanelData, ServiceError>)
    ensures r.Success? <==> reply.TextResponse? && reply.text != "" && reply.parsed.Some?
    ensures r.Success? ==> r.value == reply.parsed.value
    ensures reply.TextResponse? && reply.text == "" ==> r == Failure(NoTextResponse)
  {
    match reply
    case TextCallFailed(detail) => Failure(RequestFailed(detail))
    case TextResponse(text, parsed) =>
      if text == "" then Failure(NoTextResponse)
      else if parsed.None? then Failure(MalformedJson)
      else Success(parsed.value)
  }

  // ---------------------------------------------------------------------------
  // Image answers

  const ImageUrlPrefix: string := "data:image/png;base64,"
  const AvatarNoImage: string := "No image data returned"
  const PanelNoImage: string := "No image data returned for panel"

  /** The data URL under which an image payload is handed back. */
  function ImageDataUrl(data: string): (url: string)
    ensures ImageUrlPrefix <= url && url[|ImageUrlPrefix|..] == data
  {
    ImageUrlPrefix + data
  }

  /** Part `i` is the first part that carries inline data. */
  ghost predicate FirstInlineAt(parts: seq<Part>, i: int)
  {
    && 0 <= i < |parts|
    && parts[i].inlineData.Some?
    && forall j :: 0 <= j < i ==> parts[j].inlineData.None?
  }

  /** The image of a list of response parts: the data URL of the first part with inline data. */
  function ImageFromParts(parts: seq<Part>, missing: string): (r: Result<string, ServiceError>)
    ensures r.Success? <==> exists i :: 0 <= i < |parts| && parts[i].inlineData.Some?
    ensures r.Failure? ==> r.error == NoImageData(missing)
  {
    if parts == [] then Failure(NoImageData(missing))
    else if parts[0].inlineData.Some? then Success(ImageDataUrl(parts[0].inlineData.value.data))
    else
      var r := ImageFromParts(parts[1..], missing);
      assert forall i :: 1 <= i < |parts| ==> parts[i] == parts[1..][i - 1];
      r
  }

  /** A successful image is the data URL of the first part with inline data, and of no other. */
  lemma {:induction false} ImageFromPartsIsFirst(parts: seq<Part>, missing: string)
    requires ImageFromParts(parts, missing).Success?
    ensures exists i :: FirstInlineAt(parts, i)
              && ImageFromParts(parts, missing).value == ImageDataUrl(parts[i].inlineData.value.data)
  {
    if parts[0].inlineData.Some? {
      assert FirstInlineAt(parts, 0);
    } else {
      ImageFromPartsIsFirst(parts[1..], missing);
      var i :| FirstInlineAt(parts[1..], i)
                && ImageFromParts(parts[1..], missing).value == ImageDataUrl(parts[1..][i].inlineData.value.data);
      assert FirstInlineAt(parts, i + 1);
    }
  }

  /** The image an image-model reply yields. */
  function ImageResult(reply: ImageReply, missing: string): (r: Result<string, ServiceError>)
    ensures reply.ImageCallFailed? ==> r == Failure(RequestFailed(reply.detail))
    ensures reply.ImageResponse? && reply.candidates == [] ==> r == Failure(MissingCandidate)
    ensures r.Success? ==> reply.ImageResponse? && reply.candidates != []
                           && exists i :: 0 <= i < |reply.candidates[0].parts| && reply.candidates[0].parts[i].inlineData.Some?
  {
    match reply
    case ImageCallFailed(detail) => Failure(RequestFailed(detail))
    case ImageResponse(candidates) =>
      if candidates == [] then Failure(MissingCandidate) else ImageFromParts(candidates[0].parts, missing)
  }

  /** The `for … of` loop over the first candidate's parts that returns at the first inline image. */
  method ExtractImage(parts: seq<Part>, missing: string) returns (r: Result<string, ServiceError>)
    ensures r == ImageFromParts(parts, missing)
  {
    var i := 0;
    while i < |parts|
      invariant 0 <= i <= |parts|
      invariant ImageFromParts(parts[i..], missing) == ImageFromParts(parts, missing)
    {
      if parts[i].inlineData.Some? {
        assert parts[i..][0] == parts[i];
        return Success(ImageDataUrl(parts[i].inlineData.value.data));
      }
      assert parts[i..][1..] == parts[i + 1..];
      i := i + 1;
    }
    assert parts[i..] == [];
    return Failure(NoImageData(missing));
  }

  /** Reads the image out of an image-model reply. */
  method ReceiveImage(reply: ImageReply, missing: string) returns (r: Result<string, ServiceError>)
    ensures r == ImageResult(reply, missing)
  {
    match reply
    case ImageCallFailed(detail) =>
      r := Failure(RequestFailed(detail));
    case ImageResponse(candidates) =>
      if candidates == [] {
        r := Failure(MissingCandidate);
      } else {
        r := ExtractImage(candidates[0].parts, missing);
      }
  }

  // ---------------------------------------------------------------------------
  // Reference images

  /** Whether an optional string is truthy, which decides whether a reference image is sent: an
      absent value and the empty string are the falsy ones, every other string is truthy. */
  predicate HasReference(reference: Option<string>): (sent: bool)
    ensures reference.None? ==> !sent
    ensures reference == Some("") ==> !sent
    ensures reference.Some? && |reference.value| > 0 ==> sent
  {
    reference.Some? && reference.value != ""
  }

  /** `value || undefined` for an optional string: a truthy value is passed on, a falsy one becomes
      absent, and either way whether a reference is sent does not change. */
  function OrUndefined(reference: Option<string>): (r: Option<string>)
    ensures r.Some? <==> HasReference(reference)
    ensures r.Some? ==> r == reference
    ensures HasReference(r) == HasReference(reference)
  {
    if HasReference(reference) then reference else None
  }

  /** The payload of a reference image: with a comma, the piece between the first and the second
      comma (or the end); without one, the string itself. */
  function ReferenceImageData(reference: string): (data: string)
    ensures ',' !in reference ==> data == reference
    ensures ',' in reference ==>
              var i := IndexOf(reference, ',');
              && data <= reference[i + 1..]
              && ',' !in data
              && (i + 1 + |data| == |reference| || reference[i + 1 + |data|] == ',')
  {
    if ',' in reference then
      var i := IndexOf(reference, ',');
      assert reference == reference[..i] + [','] + reference[i + 1..];
      SplitAtFirst(reference[..i], ',', reference[i + 1..]);
      Split(reference, ',')[1]
    else reference
  }

  /** Stripping the prefix of an image data URL returns the payload it wrapped. */
  lemma ReferenceImageDataRoundTrip(data: string)
    requires ',' !in data
    ensures ReferenceImageData(ImageDataUrl(data)) == data
  {
    var url := ImageDataUrl(data);
    var k := |ImageUrlPrefix| - 1;
    assert url[k] == ',' && ',' !in url[..k];
    assert IndexOf(url, ',') == k;
    assert url[k + 1..] == data;
  }

  // ---------------------------------------------------------------------------
  // Avatar requests

  const NoTextInstruction: string := "IMPORTANT: Do NOT generate any text, speech bubbles, captions, name tags, or typography inside the image. The image must be a clean character portrait only."
  const ResemblanceLine: string := "MAINTAIN STRONG FACIAL RESEMBLANCE to the reference image (eyes, nose, mouth shape)."

  const PortraitHead: string := "Create a character portrait. Name: "
  const PortraitStyle: string := ". Style: "
  const TransformHead: string := "\nINSTRUCTION: Transform the person in the attached reference image into a "
  const TransformMid: string := " character. "
  const TransformTail: string := " Keep the hair and clothing similar but render everything in the requested artistic style."
  const DescriptionHead: string := "\nDescription: "
  const DescriptionTail: string := ". Neutral background."

  /** The opening of every avatar prompt: it names the character, gives the style prose and forbids
      any text in the image. */
  function AvatarPromptHead(name: string, style: ComicStyle): (head: string)
    ensures PortraitHead <= head
    ensures Includes(head, name) && Includes(head, StylePrompt(style)) && Includes(head, NoTextInstruction)
  {
    var pieces := [PortraitHead, name, PortraitStyle, StylePrompt(style), ". ", NoTextInstruction];
    TemplateIncludes(pieces, 1);
    TemplateIncludes(pieces, 3);
    TemplateIncludes(pieces, 5);
    assert Template(pieces) == PortraitHead + Template(pieces[1..]);
    Template(pieces)
  }

  /** The line added when the avatar is made from a reference image. */
  function ReferenceInstruction(style: ComicStyle): (line: string)
    ensures Includes(line, StyleKeyword(style)) && Includes(line, ResemblanceLine)
  {
    var pieces := [TransformHead, StyleKeyword(style), TransformMid, ResemblanceLine, TransformTail];
    TemplateIncludes(pieces, 1);
    TemplateIncludes(pieces, 3);
    Template(pieces)
  }

  /** The line added when the avatar is made from the description: it carries the description. */
  function DescriptionLine(description: string): (line: string)
    ensures DescriptionHead <= line
    ensures Includes(line, description)
  {
    var pieces := [DescriptionHead, description, DescriptionTail];
    TemplateIncludes(pieces, 1);
    assert Template(pieces) == DescriptionHead + Template(pieces[1..]);
    Template(pieces)
  }

  /** The whole avatar prompt: the opening for the name and style, then the transformation
      instruction when a reference image is sent, or the description line when none is. */
  function AvatarPrompt(name: string, description: string, style: ComicStyle, reference: Option<string>): (prompt: string)
    ensures AvatarPromptHead(name, style) <= prompt
    ensures Includes(prompt, name) && Includes(prompt, StylePrompt(style))
    ensures HasReference(reference) ==>
              Includes(prompt, ResemblanceLine) && Includes(prompt, StyleKeyword(style))
    ensures !HasReference(reference) ==>
              Includes(prompt, DescriptionLine(description)) && Includes(prompt, description)
  {
    var head := AvatarPromptHead(name, style);
    if HasReference(reference) then
      var instruction := ReferenceInstruction(style);
      IncludesInAppend(head, instruction, name, StylePrompt(style), ResemblanceLine, StyleKeyword(style));
      head + instruction
    else
      var line := DescriptionLine(description);
      assert OccursAt(line, line, 0);
      IncludesInAppend(head, line, name, StylePrompt(style), line, description);
      head + line
  }

  /** Builds the parts of an avatar request the way the source does, by growing the prompt and the
      part list: the prompt for the name, description, style and reference, then the payload of the
      reference image when one is sent. */
  method AvatarRequestParts(name: string, description: string, style: ComicStyle, reference: Option<string>)
    returns (parts: seq<Part>)
    ensures |parts| == if HasReference(reference) then 2 else 1
    ensures parts[0] == TextPart(AvatarPrompt(name, description, style, reference))
    ensures HasReference(reference) ==> parts[1] == PngPart(ReferenceImageData(reference.value))
  {
    var userPrompt := AvatarPromptHead(name, style);
    if HasReference(reference) {
      userPrompt := userPrompt + ReferenceInstruction(style);
    } else {
      userPrompt := userPrompt + DescriptionLine(description);
    }
    parts := [TextPart(userPrompt)];
    if HasReference(reference) {
      var data := ReferenceImageData(reference.value);
      parts := parts + [PngPart(data)];
    }
  }

  /** `generateCharacterAvatar`: the request it sends and the avatar URL it returns or the error it throws. */
  method GenerateCharacterAvatar(name: string, description: string, style: ComicStyle, reference: Option<string>, reply: ImageReply)
    returns (request: seq<Part>, avatar: Result<string, ServiceError>)
    ensures |request| == if HasReference(reference) then 2 else 1
    ensures request[0] == TextPart(AvatarPrompt(name, description, style, reference))
    ensures HasReference(reference) ==> request[1] == PngPart(ReferenceImageData(reference.value))
    ensures avatar == ImageResult(reply, AvatarNoImage)
  {
    request := AvatarRequestParts(name, description, style, reference);
    avatar := ReceiveImage(reply, AvatarNoImage);
  }

  // ---------------------------------------------------------------------------
  // Panel images

  const NoBubblesSuffix: string := " . Do not include speech bubbles or text in the image itself."

  /** The prompt sent for a panel image: the caller's prompt, then the fixed no-text suffix. */
  function PanelImagePrompt(imagePrompt: string): (r: string)
    ensures imagePrompt <= r
    ensures |r| == |imagePrompt| + |NoBubblesSuffix| && r[|imagePrompt|..] == NoBubblesSuffix
  {
    imagePrompt + NoBubblesSuffix
  }

  /** `generatePanelImage`: the single text part it sends and the image URL it returns or the error it throws. */
  method GeneratePanelImage(imagePrompt: string, reply: ImageReply)
    returns (request: seq<Part>, image: Result<string, ServiceError>)
    ensures request == [TextPart(PanelImagePrompt(imagePrompt))]
    ensures image == ImageResult(reply, PanelNoImage)
  {
    var cleanImagePrompt := PanelImagePrompt(imagePrompt);
    request := [TextPart(cleanImagePrompt)];
    image := ReceiveImage(reply, PanelNoImage);
  }

  // ---------------------------------------------------------------------------
  // Image analysis

  /** `analyzeCharacterImage`'s answer: the text, or the empty string when there is none. */
  function AnalysisResult(reply: AnalysisReply): (r: Result<string, ServiceError>)
    ensures r.Success? <==> reply.AnalysisResponse?
    ensures r.Success? && reply.text.Some? ==> r.value == reply.text.value
    ensures r.Success? && reply.text.None? ==> r.value == ""
  {
    match reply
    case AnalysisCallFailed(detail) => Failure(RequestFailed(detail))
    case AnalysisResponse(text) => Success(if text.Some? then text.value else "")
  }
}
