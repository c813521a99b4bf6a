/**
 * The application shell: whether an API key is available, the gallery of characters and the list
 * of panels, and the callbacks through which the studio and the board change those lists.
 */
module App {
  import opened Basics
  import opened JsStrings
  import opened JsArrays
  import opened Types
  import opened GeminiService
  import opened ComicBoard
  import opened CharacterCreator

  class AppState {
    var apiKeySet: bool
    var characters: seq<Character>
    var panels: seq<ComicPanel>

    /** Before the first key check: no key, no characters, no panels. */
    constructor ()
      ensures !apiKeySet && characters == [] && panels == []
    {
      apiKeySet := false;
      characters := [];
      panels := [];
    }

    /** The answer of a key check, at start-up or after the user was asked to connect a key,
        becomes the flag; nothing else changes. */
    method ReceiveKeyCheck(hasKey: bool)
      modifies this`apiKeySet
      ensures apiKeySet == hasKey
    {
      apiKeySet := hasKey;
    }

    /** A new character is appended to the gallery. */
    method AddCharacter(c: Character)
      modifies this`characters
      ensures characters == old(characters) + [c]
    {
      characters := characters + [c];
    }

    /** Every character with the id leaves the gallery; the others stay, in order. */
    method RemoveCharacter(id: string)
      modifies this`characters
      ensures characters == WithoutId(old(characters), CharacterId, id)
    {
      characters := WithoutId(characters, CharacterId, id);
    }

    /** A new panel is appended to the comic. */
    method AddPanel(p: ComicPanel)
      modifies this`panels
      ensures panels == old(panels) + [p]
    {
      panels := panels + [p];
    }

    /** Every panel with the id leaves the comic; the others stay, in order. */
    method RemovePanel(id: string)
      modifies this`panels
      ensures panels == WithoutId(old(panels), PanelId, id)
    {
      panels := WithoutId(panels, PanelId, id);
    }

    /** The studio's save, wired to the gallery: the studio is cleared and the saved character is
        appended to the gallery. */
    method SaveDraft(creator: Creator, draft: CharacterDraft, newId: string)
      modifies this`characters, creator`drafts, creator`name, creator`description, creator`referenceImage
      ensures characters == old(characters) + [SavedCharacter(newId, old(creator.name), old(creator.description), draft)]
      ensures creator.drafts == [] && creator.name == "" && creator.description == "" && creator.referenceImage == None
    {
      var saved := creator.HandleSaveCharacter(draft, newId);
      AddCharacter(saved);
    }

    /** The board's generation, wired to the comic: it works on the gallery's characters, and the
        panel it produces, if any, is appended to the comic; a blank prompt adds nothing. */
    method GeneratePanel(board: Board, textReply: TextReply, imageReply: ImageReply, newId: string)
      returns (textCall: Option<PanelTextCall>, imageCall: Option<string>, added: Option<ComicPanel>)
      modifies this`panels, board`prompt, board`isGenerating, board`status
      ensures panels == old(panels) + (if added.Some? then [added.value] else [])
      ensures IsBlank(old(board.prompt)) ==> textCall == None && added == None
      ensures !IsBlank(old(board.prompt)) ==>
                && textCall == Some(PanelTextCall(old(board.prompt), SelectedCharacters(characters, old(board.selectedCharIds)), old(board.selectedStyle)))
                && Generated(old(board.prompt), textReply, imageReply, newId, imageCall, added)
    {
      textCall, imageCall, added := board.HandleGenerate(characters, textReply, imageReply, newId);
      if added.Some? {
        AddPanel(added.value);
      }
    }
  }
}
