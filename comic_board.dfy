/**
 * The comic board: the story prompt, the cast selection, the generation of a new
 * panel, and the editing of the caption bubbles of the panels on display.
 * Each handler is one atomic step; what the SDK answered is a parameter.
 */
module ComicBoard {
  import opened Basics
  import opened JsStrings
  import opened JsArrays
  import opened Types
  import opened GeminiService

  /** A pointer position in client coordinates. */
  datatype Point = Point(x: real, y: real)

  /** The edit one of the bubble handlers applies to the panel it targets. */
  datatype PanelEdit =
    | MoveCaption(dx: real, dy: real)   // a drag step, already converted to percent of the panel
    | SetScale(scale: real)
    | SetCaption(caption: string)

  /** Where a new panel's caption bubble starts: horizontally centred, near the bottom, unscaled. */
  const DefaultTextPosition: TextPosition := TextPosition(50.0, 90.0, 1.0)

  /** The status lines shown while the text stage and the image stage run. */
  const WritingStatus: string := "Scriem scenariul..."
  const DrawingStatus: string := "Generăm imaginea..."

  /** `Math.min(Math.max(v, 0), 100)`. */
  function Clamp(v: real): (r: real)
    ensures 0.0 <= r <= 100.0
    ensures 0.0 <= v <= 100.0 ==> r == v
    ensures v < 0.0 ==> r == 0.0
    ensures v > 100.0 ==> r == 100.0
  {
    var atLeastZero := if v > 0.0 then v else 0.0;
    if atLeastZero < 100.0 then atLeastZero else 100.0
  }

  /** A panel after an edit: a drag moves only the bubble's x and y (clamped to the panel), a scale
      change touches only the scale, a caption change only the caption; id, image and prompt stay. */
  function ApplyEdit(p: ComicPanel, e: PanelEdit): (r: ComicPanel)
    ensures r.id == p.id && r.imageUrl == p.imageUrl && r.prompt == p.prompt
    ensures e.MoveCaption? ==>
              && r.caption == p.caption
              && r.textPosition.scale == p.textPosition.scale
              && 0.0 <= r.textPosition.x <= 100.0 && 0.0 <= r.textPosition.y <= 100.0
              && r.textPosition.x == Clamp(p.textPosition.x + e.dx)
              && r.textPosition.y == Clamp(p.textPosition.y + e.dy)
    ensures e.SetScale? ==>
              && r.caption == p.caption
              && r.textPosition == p.textPosition.(scale := e.scale)
    ensures e.SetCaption? ==>
              && r.textPosition == p.textPosition
              && r.caption == e.caption
  {
    match e
    case MoveCaption(dx, dy) =>
      p.(textPosition := p.textPosition.(x := Clamp(p.textPosition.x + dx), y := Clamp(p.textPosition.y + dy)))
    case SetScale(scale) =>
      p.(textPosition := p.textPosition.(scale := scale))
    case SetCaption(caption) =>
      p.(caption := caption)
  }

  /** `panels.map(p => p.id === id ? edit(p) : p)`: the panels with the id are edited; the others, the
      length and the order stay as they were. */
  function EditPanels(panels: seq<ComicPanel>, id: string, e: PanelEdit): (r: seq<ComicPanel>)
    ensures |r| == |panels|
    ensures forall i :: 0 <= i < |r| ==> r[i].id == panels[i].id
    ensures forall i :: 0 <= i < |r| && panels[i].id != id ==> r[i] == panels[i]
    ensures forall i :: 0 <= i < |r| && panels[i].id == id ==> r[i] == ApplyEdit(panels[i], e)
  {
    seq(|panels|, i requires 0 <= i < |panels| => if panels[i].id == id then ApplyEdit(panels[i], e) else panels[i])
  }

  /** `characters.filter(c => selected.has(c.id))`: the characters a generation is about. */
  function SelectedCharacters(characters: seq<Character>, selected: set<string>): (cast: seq<Character>)
    ensures |cast| <= |characters|
    ensures forall c :: c in cast <==> c in characters && c.id in selected
  {
    Filter(characters, (c: Character) => c.id in selected)
  }

  /** The characters sent are exactly those whose id is selected, each as often and in the order in
      which the cast lists it; with nothing selected, none is sent. */
  lemma SelectedCharactersSpec(characters: seq<Character>, selected: set<string>)
    ensures forall c :: c in SelectedCharacters(characters, selected) <==> c in characters && c.id in selected
    ensures forall c: Character :: c.id in selected ==> multiset(SelectedCharacters(characters, selected))[c] == multiset(characters)[c]
    ensures selected == {} ==> SelectedCharacters(characters, selected) == []
    ensures (forall i :: 0 <= i < |characters| ==> characters[i].id in selected) ==> SelectedCharacters(characters, selected) == characters
  {
    var p := (c: Character) => c.id in selected;
    forall c: Character | c.id in selected
      ensures multiset(SelectedCharacters(characters, selected))[c] == multiset(characters)[c]
    {
      FilterCounts(characters, p, c);
    }
    if forall i :: 0 <= i < |characters| ==> characters[i].id in selected {
      FilterKeepsAll(characters, p);
    }
  }

  /** Removing a character from the cast also removes it from the characters a generation sends,
      and changes nothing else about them. */
  lemma SelectedAfterRemoval(characters: seq<Character>, selected: set<string>, id: string)
    ensures SelectedCharacters(WithoutId(characters, CharacterId, id), selected)
            == WithoutId(SelectedCharacters(characters, selected), CharacterId, id)
  {
    WithoutIdFilter(characters, (c: Character) => c.id in selected, CharacterId, id);
  }

  /** The set after a click on a cast member: the clicked id flips in or out, no other id changes. */
  function Toggled(selected: set<string>, id: string): (r: set<string>)
    ensures id in r <==> id !in selected
    ensures forall other :: other != id ==> (other in r <==> other in selected)
  {
    if id in selected then selected - {id} else selected + {id}
  }

  /** Toggling the same id twice restores the selection. */
  lemma ToggledTwice(selected: set<string>, id: string)
    ensures Toggled(Toggled(selected, id), id) == selected
  {
  }

  /** The row count of a caption's text area, `Math.max(2, Math.ceil(caption.length / 25))`, where
      the length counts UTF-16 code units: at least two rows, enough rows of 25 code units for the
      caption, and no more than that needs. */
  function CaptionRows(caption: string): (rows: nat)
    ensures rows >= 2
    ensures rows * 25 >= Utf16Length(caption)
    ensures rows == 2 || (rows - 1) * 25 < Utf16Length(caption)
  {
    var ceil := (Utf16Length(caption) + 24) / 25;
    if ceil > 2 then ceil else 2
  }

  /** What the two stages yield for a scene: the image stage is asked exactly when the text stage
      succeeded, with the image prompt it returned, and a panel is added exactly when both succeeded,
      carrying the new id, the image URL, the caption and the scene, with its bubble at the default
      position. */
  ghost predicate Generated(scene: string, textReply: TextReply, imageReply: ImageReply, newId: string,
                            imageCall: Option<string>, added: Option<ComicPanel>)
  {
    var text := PanelTextResult(textReply);
    var image := ImageResult(imageReply, PanelNoImage);
    && (imageCall.Some? <==> text.Success?)
    && (text.Success? ==> imageCall == Some(text.value.imagePrompt))
    && (added.Some? <==> text.Success? && image.Success?)
    && (added.Some? ==> added == Some(ComicPanel(newId, image.value, text.value.caption, scene, DefaultTextPosition)))
  }

  class Board {
    var prompt: string
    var isGenerating: bool
    var status: string
    var selectedStyle: ComicStyle
    var selectedCharIds: set<string>
    var draggingPanelId: Option<string>
    var dragStart: Point
    var localPanels: seq<ComicPanel>

    /** A board opened on the given panels, with an empty prompt, no cast selected and no drag. */
    constructor (panels: seq<ComicPanel>)
      ensures prompt == "" && !isGenerating && status == "" && selectedStyle == ComicBook
      ensures selectedCharIds == {} && draggingPanelId == None && dragStart == Point(0.0, 0.0)
      ensures localPanels == panels
    {
      prompt := "";
      isGenerating := false;
      status := "";
      selectedStyle := ComicBook;
      selectedCharIds := {};
      draggingPanelId := None;
      dragStart := Point(0.0, 0.0);
      localPanels := panels;
    }

    /**
     * Submitting the story form. A blank prompt does nothing; any other prompt runs the generation.
     */
    method HandleGenerate(characters: seq<Character>, textReply: TextReply, imageReply: ImageReply, newId: string)
      returns (textCall: Option<PanelTextCall>, imageCall: Option<string>, added: Option<ComicPanel>)
      modifies this`prompt, this`isGenerating, this`status
      ensures IsBlank(old(prompt)) ==>
                && prompt == old(prompt) && isGenerating == old(isGenerating) && status == old(status)
                && textCall == None && imageCall == None && added == None
      ensures !IsBlank(old(prompt)) ==>
                && textCall == Some(PanelTextCall(old(prompt), SelectedCharacters(characters, old(selectedCharIds)), old(selectedStyle)))
                && Generated(old(prompt), textReply, imageReply, newId, imageCall, added)
                && !isGenerating && status == "" && prompt == (if added.Some? then "" else old(prompt))
    {
      if TrimsToEmpty(prompt) {
        return None, None, None;
      }
      textCall, imageCall, added := Generate(characters, textReply, imageReply, newId);
    }

    /**
     * The generation proper, for a prompt that is not blank. The text stage is asked with the
     * selected characters only, then the image stage with the image prompt it returned; when both
     * succeed the new panel is handed to the panel list and the prompt is cleared. Whatever happened,
     * the board is no longer generating and shows no status afterwards.
     */
    method Generate(characters: seq<Character>, textReply: TextReply, imageReply: ImageReply, newId: string)
      returns (textCall: Option<PanelTextCall>, imageCall: Option<string>, added: Option<ComicPanel>)
      modifies this`prompt, this`isGenerating, this`status
      ensures textCall == Some(PanelTextCall(old(prompt), SelectedCharacters(characters, old(selectedCharIds)), old(selectedStyle)))
      ensures Generated(old(prompt), textReply, imageReply, newId, imageCall, added)
      ensures !isGenerating && status == "" && prompt == (if added.Some? then "" else old(prompt))
    {
      var activeCharacters := SelectedCharacters(characters, selectedCharIds);
      var charsToUse := if |activeCharacters| > 0 then activeCharacters else [];
      assert charsToUse == activeCharacters;
      isGenerating := true;
      status := WritingStatus;

      textCall, imageCall, added := Some(PanelTextCall(prompt, charsToUse, selectedStyle)), None, None;
      var textData := PanelTextResult(textReply);
      if textData.Success? {
        status := DrawingStatus;
        imageCall := Some(textData.value.imagePrompt);
        var request, imageUrl := GeneratePanelImage(textData.value.imagePrompt, imageReply);
        if imageUrl.Success? {
          var newPanel := ComicPanel(newId, imageUrl.value, textData.value.caption, prompt, DefaultTextPosition);
          added := Some(newPanel);
          prompt := "";
        }
      }

      isGenerating := false;
      status := "";
    }
    /** A click on a cast member flips its selection. */
    method ToggleCharSelection(id: string)
      modifies this`selectedCharIds
      ensures selectedCharIds == Toggled(old(selectedCharIds), id)
    {
      var newSet := selectedCharIds;
      if id in newSet {
        newSet := newSet - {id};
      } else {
        newSet := newSet + {id};
      }
      selectedCharIds := newSet;
    }

    /** Pressing on a caption bubble starts dragging that panel's bubble from the pointer position. */
    method HandleMouseDown(panelId: string, clientX: real, clientY: real)
      modifies this`draggingPanelId, this`dragStart
      ensures draggingPanelId == Some(panelId) && dragStart == Point(clientX, clientY)
    {
      draggingPanelId := Some(panelId);
      dragStart := Point(clientX, clientY);
    }

    /**
     * A pointer move over a panel. Unless that panel's bubble is being dragged nothing changes;
     * otherwise its bubble moves by the given percentages, clamped to the panel, and the drag
     * continues from the new pointer position.
     */
    method HandleMouseMove(panelId: string, clientX: real, clientY: real, deltaX: real, deltaY: real)
      modifies this`localPanels, this`dragStart
      ensures draggingPanelId != Some(panelId) ==> localPanels == old(localPanels) && dragStart == old(dragStart)
      ensures draggingPanelId == Some(panelId) ==>
                && localPanels == EditPanels(old(localPanels), panelId, MoveCaption(deltaX, deltaY))
                && dragStart == Point(clientX, clientY)
    {
      if draggingPanelId != Some(panelId) {
        return;
      }
      localPanels := EditPanels(localPanels, panelId, MoveCaption(deltaX, deltaY));
      dragStart := Point(clientX, clientY);
    }

    /** Releasing the pointer, or leaving the panel, ends any drag. */
    method HandleMouseUp()
      modifies this`draggingPanelId
      ensures draggingPanelId == None
    {
      draggingPanelId := None;
    }

    /** The size slider of a panel sets that panel's bubble scale. */
    method HandleScaleChange(panelId: string, newScale: real)
      modifies this`localPanels
      ensures localPanels == EditPanels(old(localPanels), panelId, SetScale(newScale))
    {
      localPanels := EditPanels(localPanels, panelId, SetScale(newScale));
    }

    /** Typing in a bubble sets that panel's caption. */
    method HandleCaptionChange(panelId: string, newCaption: string)
      modifies this`localPanels
      ensures localPanels == EditPanels(old(localPanels), panelId, SetCaption(newCaption))
    {
      localPanels := EditPanels(localPanels, panelId, SetCaption(newCaption));
    }
  }
}
