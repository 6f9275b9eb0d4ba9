/** The state behind the catalogue viewer of `check_json_utils.py`: the JSON
    catalogue of a folder of clips, loaded into one field, browsed one clip at a
    time, and edited one transcript at a time.

    The catalogue is a dictionary from clip name to a record of string fields, of
    which `text` is the transcript. Python dictionaries keep insertion order, so
    it is held as a sequence of (name, record) entries with distinct names. */
module Catalog {
  import opened Python
  import opened Text

  /** One clip's record: its fields by name. */
  type Record = map<string, string>

  /** The catalogue, in insertion order. */
  type Entries = seq<(string, Record)>

  /** A dictionary: no name occurs twice. */
  predicate IsDict(e: Entries)
  {
    forall i, j :: 0 <= i < j < |e| ==> e[i].0 != e[j].0
  }

  /** `list(d.keys())`. */
  function Keys(e: Entries): (r: seq<string>)
    ensures |r| == |e|
  {
    seq(|e|, i requires 0 <= i < |e| => e[i].0)
  }

  /** `d[name]`, where `None` is a `KeyError`. */
  function Lookup(e: Entries, name: string): (r: Option<Record>)
    ensures r.None? <==> forall i :: 0 <= i < |e| ==> e[i].0 != name
    ensures r.Some? ==> exists i :: 0 <= i < |e| && e[i] == (name, r.value)
  {
    if |e| == 0 then None
    else if e[0].0 == name then Some(e[0].1)
    else
      var r := Lookup(e[1..], name);
      assert forall i :: 1 <= i < |e| ==> e[i] == e[1..][i - 1];
      r
  }

  /** In a dictionary, the record at a position is the one found under its name. */
  lemma {:induction false} LookupAt(e: Entries, i: nat)
    requires IsDict(e) && i < |e|
    ensures Lookup(e, e[i].0) == Some(e[i].1)
  {
    var r := Lookup(e, e[i].0);
    var k :| 0 <= k < |e| && e[k] == (e[i].0, r.value);
    assert k == i;
  }

  /** `d[name]['text'] = text`: the record under `name` gains or replaces its
      `text` field. */
  function WithText(e: Entries, name: string, text: string): (r: Entries)
    ensures |r| == |e|
  {
    seq(|e|, i requires 0 <= i < |e| => if e[i].0 == name then (name, e[i].1["text" := text]) else e[i])
  }

  /** Editing one transcript keeps the names and their order, every other record
      and every other field of the edited record. */
  lemma {:induction false} WithTextKeeps(e: Entries, name: string, text: string)
    requires IsDict(e)
    ensures Keys(WithText(e, name, text)) == Keys(e)
    ensures IsDict(WithText(e, name, text))
    ensures forall i :: 0 <= i < |e| && e[i].0 != name ==> WithText(e, name, text)[i] == e[i]
    ensures forall i :: 0 <= i < |e| && e[i].0 == name ==>
      WithText(e, name, text)[i].1 == e[i].1["text" := text]
  {
    var r := WithText(e, name, text);
    assert forall i :: 0 <= i < |e| ==> r[i].0 == e[i].0;
    assert Keys(r) == Keys(e);
  }

  /** After the edit, the name's record holds the new transcript. */
  lemma {:induction false} WithTextReadBack(e: Entries, name: string, text: string)
    requires IsDict(e) && Lookup(e, name).Some?
    ensures Lookup(WithText(e, name, text), name) == Some(Lookup(e, name).value["text" := text])
  {
    var k :| 0 <= k < |e| && e[k] == (name, Lookup(e, name).value);
    WithTextKeeps(e, name, text);
    LookupAt(WithText(e, name, text), k);
  }

  /** What the viewer shows: the clip's path, its name, the page, the page label
      and the transcript. */
  datatype AudioView = AudioView(path: Option<string>, name: string, page: int, pageLabel: string, text: string)

  /** The view shown when the index is outside the catalogue. */
  const NotAvailable: AudioView := AudioView(None, "", 1, "Audio not available", "")

  /** `f"Current Audio: {page}/{total}"`. */
  function PageLabel(page: nat, total: nat): string
  {
    "Current Audio: " + NatToString(page) + "/" + NatToString(total)
  }

  /** `change_audio(index, json_folder)` over the catalogue `e`. The clip at
      `index` is shown from `json_folder/audios/`; its transcript is looked up under
      the clip's base name, and a missing record or `text` field raises `KeyError`. */
  function ViewAt(e: Entries, index: int, jsonFolder: string): Result<AudioView>
  {
    if 0 <= index < |e| then
      var audioFile := e[index].0;
      var audioName := Basename(audioFile);
      var audioPath := PathJoin(PathJoin(jsonFolder, "audios"), audioFile);
      match Lookup(e, audioName)
      case None => Err(KeyError)
      case Some(record) =>
        if "text" in record then
          Ok(AudioView(Some(audioPath), audioName, index + 1, PageLabel(index + 1, |e|), record["text"]))
        else Err(KeyError)
    else Ok(NotAvailable)
  }

  /** For an index inside the catalogue, the view is the clip at that position in
      insertion order, under `json_folder/audios/`, on page `index + 1` of `n`,
      with its transcript. */
  lemma {:induction false} ViewInRange(e: Entries, index: int, jsonFolder: string)
    requires IsDict(e) && 0 <= index < |e|
    requires '/' !in e[index].0 && "text" in e[index].1
    ensures ViewAt(e, index, jsonFolder) == Ok(AudioView(
      Some(PathJoin(PathJoin(jsonFolder, "audios"), Keys(e)[index])),
      Keys(e)[index], index + 1, PageLabel(index + 1, |e|), e[index].1["text"]))
  {
    LookupAt(e, index);
  }

  /** Any index below 0 or past the end gives the fixed view, with no clamping. */
  lemma {:induction false} ViewOutOfRange(e: Entries, index: int, jsonFolder: string)
    ensures !(0 <= index < |e|) <==> ViewAt(e, index, jsonFolder) == Ok(NotAvailable)
  {
    if 0 <= index < |e| {
      var r := ViewAt(e, index, jsonFolder);
      assert r.Ok? ==> r.value.path.Some?;
    }
  }

  /** After the transcript of a clip is saved, viewing that clip shows it. */
  lemma {:induction false} SaveThenView(e: Entries, index: int, jsonFolder: string, text: string)
    requires IsDict(e) && 0 <= index < |e| && '/' !in e[index].0
    ensures ViewAt(WithText(e, e[index].0, text), index, jsonFolder).Ok?
    ensures ViewAt(WithText(e, e[index].0, text), index, jsonFolder).value.text == text
  {
    var name := e[index].0;
    var saved := WithText(e, name, text);
    WithTextKeeps(e, name, text);
    assert saved[index] == (name, e[index].1["text" := text]);
    ViewInRange(saved, index, jsonFolder);
  }

  /** `get_json(path)` over the listing of the folder: the first name that ends
      in `.json`, or `None`. */
  function GetJson(names: seq<string>): (r: Option<string>)
    ensures r.None? <==> forall j :: 0 <= j < |names| ==> !EndsWith(names[j], ".json")
    ensures r.Some? ==> exists k ::
      0 <= k < |names| && names[k] == r.value && EndsWith(r.value, ".json")
      && (forall j :: 0 <= j < k ==> !EndsWith(names[j], ".json"))
  {
    if |names| == 0 then None
    else if EndsWith(names[0], ".json") then Some(names[0])
    else
      var r := GetJson(names[1..]);
      assert forall j :: 1 <= j < |names| ==> names[j] == names[1..][j - 1];
      if r.Some? then
        var k :| 0 <= k < |names[1..]| && names[1..][k] == r.value && EndsWith(r.value, ".json")
          && (forall j :: 0 <= j < k ==> !EndsWith(names[1..][j], ".json"));
        assert names[k + 1] == r.value;
        r
      else r
  }

  /** The reply of `save_json`. */
  const Saved: string := ">> *The JSON was saved.*"

  /** `AudioJsonHandler`: the loaded catalogue, `None` until one is loaded. */
  class AudioJsonHandler {
    var jsonData: Option<Entries>

    /** A loaded catalogue is a dictionary. */
    predicate Valid()
      reads this
    {
      jsonData.Some? ==> IsDict(jsonData.value)
    }

    constructor ()
      ensures Valid() && jsonData == None
    {
      jsonData := None;
    }

    /** `change_audio(index, json_folder)`: with nothing loaded, `len(None)` raises. */
    function ChangeAudio(index: int, jsonFolder: string): Result<AudioView>
      reads this
    {
      match jsonData
      case None => Err(TypeError)
      case Some(e) => ViewAt(e, index, jsonFolder)
    }

    /** `handle_pagination(page, json_folder, delta)`: the page is 1-based. */
    function HandlePagination(page: int, jsonFolder: string, delta: int): Result<AudioView>
      reads this
    {
      var newIndex := page - 1 + delta;
      ChangeAudio(newIndex, jsonFolder)
    }

    /** `load_and_init(json_folder)`, where `listing` is what `os.listdir` returns
        and `data` what `json.load` reads from the file found. Without a `.json`
        file, `os.path.join(json_folder, None)` raises before anything is loaded. */
    method LoadAndInit(jsonFolder: string, listing: seq<string>, data: Entries) returns (r: Result<AudioView>)
      requires Valid() && IsDict(data)
      modifies this
      ensures Valid()
      ensures GetJson(listing).None? ==> r == Err(TypeError) && jsonData == old(jsonData)
      ensures GetJson(listing).Some? ==> jsonData == Some(data) && r == ViewAt(data, 0, jsonFolder)
    {
      var jsonFile := GetJson(listing);
      if jsonFile.None? {
        return Err(TypeError);
      }
      jsonData := Some(data);
      r := ChangeAudio(0, jsonFolder);
    }

    /** `save_json(text, audio_name)`: only the `text` field of that record
        changes; nothing is written to disk. */
    method SaveJson(text: string, audioName: string) returns (r: Result<string>)
      requires Valid()
      modifies this
      ensures Valid()
      ensures old(jsonData).None? ==> r == Err(TypeError) && jsonData == old(jsonData)
      ensures old(jsonData).Some? && Lookup(old(jsonData).value, audioName).None? ==>
        r == Err(KeyError) && jsonData == old(jsonData)
      ensures old(jsonData).Some? && Lookup(old(jsonData).value, audioName).Some? ==>
        r == Ok(Saved) && jsonData == Some(WithText(old(jsonData).value, audioName, text))
    {
      if jsonData.None? {
        return Err(TypeError);
      }
      var e := jsonData.value;
      if Lookup(e, audioName).None? {
        return Err(KeyError);
      }
      WithTextKeeps(e, audioName, text);
      jsonData := Some(WithText(e, audioName, text));
      return Ok(Saved);
    }
  }

  /** After loading, the first clip is shown, or the fixed view for an empty
      catalogue. */
  lemma {:induction false} LoadShowsFirst(e: Entries, jsonFolder: string)
    requires IsDict(e)
    ensures |e| == 0 ==> ViewAt(e, 0, jsonFolder) == Ok(NotAvailable)
    ensures |e| > 0 && '/' !in e[0].0 && "text" in e[0].1 ==>
      ViewAt(e, 0, jsonFolder).Ok? && ViewAt(e, 0, jsonFolder).value.page == 1
      && ViewAt(e, 0, jsonFolder).value.name == e[0].0
  {
    if |e| > 0 && '/' !in e[0].0 && "text" in e[0].1 {
      ViewInRange(e, 0, jsonFolder);
    }
  }

  /** Paging over a loaded catalogue `e` shows the 0-based index `page - 1 + delta`:
      a move that stays inside it lands on page `page + delta`, showing the clip at
      that position; "Next" from the last page gives the fixed view, whose page is 1. */
  lemma {:induction false} PaginationMoves(h: AudioJsonHandler, e: Entries, page: int, delta: int, jsonFolder: string)
    requires h.jsonData == Some(e) && IsDict(e)
    ensures h.HandlePagination(page, jsonFolder, delta) == h.ChangeAudio(page - 1 + delta, jsonFolder)
    ensures 1 <= page + delta <= |e| && '/' !in e[page - 1 + delta].0 && "text" in e[page - 1 + delta].1 ==>
      h.HandlePagination(page, jsonFolder, delta).Ok?
      && h.HandlePagination(page, jsonFolder, delta).value.page == page + delta
      && h.HandlePagination(page, jsonFolder, delta).value.name == Keys(e)[page - 1 + delta]
    ensures page == |e| && delta == 1 ==> h.HandlePagination(page, jsonFolder, delta) == Ok(NotAvailable)
  {
    var index := page - 1 + delta;
    if 0 <= index < |e| && '/' !in e[index].0 && "text" in e[index].1 {
      ViewInRange(e, index, jsonFolder);
    }
  }
}
