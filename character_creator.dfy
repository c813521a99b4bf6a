/**
 * The character studio: a reference photo that may describe itself, avatar drafts generated from
 * the name, description and style, and the save that turns one draft into a gallery character.
 * Each handler is one atomic step; what the SDK answered is a parameter.
 */
module CharacterCreator {
  import opened Basics
  import opened JsStrings
  import opened JsArrays
  import opened Types
  import opened GeminiService

  /** A generated avatar the user may keep or discard. */
  datatype CharacterDraft = CharacterDraft(id: string, imageUrl: string)

  function DraftId(d: CharacterDraft): string { d.id }

  /** The description a character saved without one receives. */
  const FallbackDescription: string := "Personaj generat din imagine"

  /** The character saved from a draft: the new id, the typed name, the draft's image, and the typed
      description, or the fallback when none was typed; a saved character always has a description. */
  function SavedCharacter(id: string, name: string, description: string, draft: CharacterDraft): (c: Character)
    ensures c.id == id && c.name == name && c.avatarUrl == draft.imageUrl
    ensures c.description != ""
    ensures description != "" ==> c.description == description
    ensures description == "" ==> c.description == FallbackDescription
  {
    Character(id, name, if description != "" then description else FallbackDescription, draft.imageUrl)
  }

  /** The draft list after a generation: a new avatar goes in front, a failed one changes nothing. */
  function DraftsAfter(drafts: seq<CharacterDraft>, newId: string, avatar: Result<string, ServiceError>): (r: seq<CharacterDraft>)
    ensures avatar.Failure? ==> r == drafts
    ensures avatar.Success? ==> |r| == |drafts| + 1 && r[0] == CharacterDraft(newId, avatar.value) && r[1..] == drafts
  {
    if avatar.Success? then [CharacterDraft(newId, avatar.value)] + drafts else drafts
  }

  /** Discarding the draft a generation just added, under an id no earlier draft had, gives back
      the drafts as they were before the generation. */
  lemma DeleteUndoesNewDraft(drafts: seq<CharacterDraft>, newId: string, avatar: Result<string, ServiceError>)
    requires forall i :: 0 <= i < |drafts| ==> drafts[i].id != newId
    ensures WithoutId(DraftsAfter(drafts, newId, avatar), DraftId, newId) == drafts
  {
    WithoutIdSpec(drafts, DraftId, newId);
    if avatar.Success? {
      var d := CharacterDraft(newId, avatar.value);
      WithoutIdConcat([d], drafts, DraftId, newId);
      assert WithoutId([d], DraftId, newId) == [];
    }
  }

  /** The parts of the avatar request for a name, description, style and reference photo: the avatar
      prompt for them, followed by the stripped reference photo when there is one. */
  ghost predicate AvatarRequestFor(parts: seq<Part>, name: string, description: string, style: ComicStyle,
                                   reference: Option<string>)
  {
    && |parts| == (if HasReference(reference) then 2 else 1)
    && parts[0] == TextPart(AvatarPrompt(name, description, style, reference))
    && (HasReference(reference) ==> parts[1] == PngPart(ReferenceImageData(reference.value)))
  }

  class Creator {
    var name: string
    var description: string
    var selectedStyle: ComicStyle
    var referenceImage: Option<string>
    var isGenerating: bool
    var analyzingImage: bool
    var drafts: seq<CharacterDraft>

    /** An empty studio: no name, no description, the comic-book style, no photo, no drafts. */
    constructor ()
      ensures name == "" && description == "" && selectedStyle == ComicBook && referenceImage == None
      ensures !isGenerating && !analyzingImage && drafts == []
    {
      name := "";
      description := "";
      selectedStyle := ComicBook;
      referenceImage := None;
      isGenerating := false;
      analyzingImage := false;
      drafts := [];
    }

    /**
     * A photo was chosen (`file` is the data URL the file reader produced, `None` when no file was
     * picked). The photo becomes the reference image; when no description has been typed yet the
     * photo is analysed and its description replaces the empty one, unless the analysis fails.
     * The returned call is the photo sent for analysis, if any.
     */
    method HandleImageUpload(file: Option<string>, reply: AnalysisReply) returns (analysisCall: Option<string>)
      modifies this`referenceImage, this`description, this`analyzingImage
      ensures file.None? ==>
                && referenceImage == old(referenceImage) && description == old(description)
                && analyzingImage == old(analyzingImage) && analysisCall == None
      ensures file.Some? ==> referenceImage == file
      ensures file.Some? && old(description) != "" ==>
                description == old(description) && analyzingImage == old(analyzingImage) && analysisCall == None
      ensures file.Some? && old(description) == "" ==>
                && analysisCall == file && !analyzingImage
                && description == (if AnalysisResult(reply).Success? then AnalysisResult(reply).value else old(description))
    {
      analysisCall := None;
      if file.None? {
        return;
      }
      var base64String := file.value;
      referenceImage := Some(base64String);
      if description == "" {
        analyzingImage := true;
        analysisCall := Some(base64String);
        var aiDescription := AnalysisResult(reply);
        if aiDescription.Success? {
          description := aiDescription.value;
        }
        analyzingImage := false;
      }
    }

    /** Submitting the studio form: a blank name is refused and nothing changes; any other name
        generates a draft. The returned request is the parts that were sent, if any: the avatar request
        for the studio's name, description, style and reference photo. */
    method HandleGenerateDraft(newId: string, reply: ImageReply) returns (sent: Option<seq<Part>>)
      modifies this`isGenerating, this`drafts
      ensures IsBlank(name) ==> drafts == old(drafts) && isGenerating == old(isGenerating) && sent == None
      ensures !IsBlank(name) ==>
                && sent.Some? && AvatarRequestFor(sent.value, name, description, selectedStyle, referenceImage)
                && !isGenerating && drafts == DraftsAfter(old(drafts), newId, ImageResult(reply, AvatarNoImage))
    {
      if TrimsToEmpty(name) {
        return None;
      }
      var request := GenerateDraft(newId, reply);
      sent := Some(request);
    }

    /**
     * The generation proper, for a name that is not blank. An avatar is requested for the name,
     * description, style and reference photo; a returned avatar becomes a new draft in front of the
     * others, a failure leaves the drafts alone, and either way the studio is no longer generating.
     */
    method GenerateDraft(newId: string, reply: ImageReply) returns (request: seq<Part>)
      modifies this`isGenerating, this`drafts
      ensures AvatarRequestFor(request, name, description, selectedStyle, referenceImage)
      ensures !isGenerating && drafts == DraftsAfter(old(drafts), newId, ImageResult(reply, AvatarNoImage))
    {
      isGenerating := true;
      var avatarUrl;
      request, avatarUrl := GenerateCharacterAvatar(name, description, selectedStyle, OrUndefined(referenceImage), reply);
      if avatarUrl.Success? {
        var newDraft := CharacterDraft(newId, avatarUrl.value);
        drafts := [newDraft] + drafts;
      }
      isGenerating := false;
    }

    /** Keeping a draft: the character it makes is returned for the gallery, and the studio is
        cleared for the next character (no drafts, no name, no description, no photo). */
    method HandleSaveCharacter(draft: CharacterDraft, newId: string) returns (saved: Character)
      modifies this`drafts, this`name, this`description, this`referenceImage
      ensures saved == SavedCharacter(newId, old(name), old(description), draft)
      ensures drafts == [] && name == "" && description == "" && referenceImage == None
    {
      saved := Character(newId, name, if description != "" then description else FallbackDescription, draft.imageUrl);
      drafts := [];
      name := "";
      description := "";
      referenceImage := None;
    }

    /** Discarding a draft removes every draft with its id. */
    method HandleDeleteDraft(id: string)
      modifies this`drafts
      ensures drafts == WithoutId(old(drafts), DraftId, id)
    {
      drafts := WithoutId(drafts, DraftId, id);
    }
  }
}
