/**
 * The demo's `MainWindow`: the tool style string, the file-dialog filters and the extension
 * rules of export and image insertion, the untitled file name, the part search of the
 * Previous and Next buttons, and the pen-width menu.
 *
 * The MIME registry (`MimeTypeF`) is replaced by the names and extension lists it would
 * return, already split at commas; `File.Exists` is membership in a finite list of existing
 * paths; whether the editor accepts a part is a predicate on the part's index.
 */
module DemoWindow {
  import opened Wrappers
  import opened Strings
  import opened EditorControl

  // ---------------------------------------------------------------------------------------
  // Tool style

  /** `ApplyToolStyle`'s style: a width declaration and a colour declaration, each left out
      when its value is null or empty. */
  function ToolStyle(width: Option<string>, color: Option<string>): (r: string)
    ensures IsNullOrEmpty(width) && IsNullOrEmpty(color) ==> r == ""
    ensures !IsNullOrEmpty(width) ==> StartsWith(r, "-myscript-pen-width: " + width.value + "; ")
    ensures !IsNullOrEmpty(color) ==> EndsWith(r, "color: " + color.value + "; ")
    ensures IsNullOrEmpty(width) != IsNullOrEmpty(color) ==>
      r == if IsNullOrEmpty(width) then "color: " + color.value + "; " else "-myscript-pen-width: " + width.value + "; "
    ensures !IsNullOrEmpty(width) && !IsNullOrEmpty(color) ==>
      r == "-myscript-pen-width: " + width.value + "; " + "color: " + color.value + "; "
  {
    var w := if IsNullOrEmpty(width) then "" else "-myscript-pen-width: " + width.value + "; ";
    var c := if IsNullOrEmpty(color) then "" else "color: " + color.value + "; ";
    assert (w + c)[..|w|] == w;
    assert (w + c)[|w + c| - |c|..] == c;
    w + c
  }

  /** The style settings of the two inking tools. */
  datatype StyleSettings = StyleSettings(
    penWidth: Option<string>, penColor: Option<string>,
    highlighterWidth: Option<string>, highlighterColor: Option<string>)

  /** `ApplyToolStyle(tool)`: the `SetToolStyle` call it makes, if any. */
  function ApplyToolStyle(tool: PointerTool, settings: StyleSettings): (r: Option<(PointerTool, string)>)
    ensures r.Some? <==> tool == PenTool || tool == HighlighterTool
    ensures tool == PenTool ==> r == Some((PenTool, ToolStyle(settings.penWidth, settings.penColor)))
    ensures tool == HighlighterTool ==> r == Some((HighlighterTool, ToolStyle(settings.highlighterWidth, settings.highlighterColor)))
  {
    if tool == PenTool then Some((PenTool, ToolStyle(settings.penWidth, settings.penColor)))
    else if tool == HighlighterTool then Some((HighlighterTool, ToolStyle(settings.highlighterWidth, settings.highlighterColor)))
    else None
  }

  // ---------------------------------------------------------------------------------------
  // Export

  /** `*` before each extension. */
  function Patterns(extensions: seq<string>): (r: seq<string>)
    ensures |r| == |extensions|
    ensures forall j :: 0 <= j < |r| ==> r[j] == "*" + extensions[j]
  {
    seq(|extensions|, j requires 0 <= j < |extensions| => "*" + extensions[j])
  }

  /** One entry of the export filter: `name|*e1;*e2;...`. */
  function FilterEntry(name: string, extensions: seq<string>): string {
    name + "|" + Join(";", Patterns(extensions))
  }

  /** The export filter: the entries of all MIME types, joined with `|`. */
  function ExportFilterSpec(mimes: seq<(string, seq<string>)>): string {
    Join("|", seq(|mimes|, i requires 0 <= i < |mimes| => FilterEntry(mimes[i].0, mimes[i].1)))
  }

  /** The export filter starts with the first type's name and ends with the last type's last
      pattern: there is no separator before the first entry or after the last. */
  lemma ExportFilterEnds(mimes: seq<(string, seq<string>)>)
    requires mimes != [] && mimes[|mimes| - 1].1 != []
    ensures StartsWith(ExportFilterSpec(mimes), mimes[0].0 + "|")
    ensures EndsWith(ExportFilterSpec(mimes), "*" + mimes[|mimes| - 1].1[|mimes[|mimes| - 1].1| - 1])
  {
    var entries := seq(|mimes|, i requires 0 <= i < |mimes| => FilterEntry(mimes[i].0, mimes[i].1));
    JoinEnds("|", entries);
    var first := entries[0];
    assert StartsWith(first, mimes[0].0 + "|") by {
      assert first == (mimes[0].0 + "|") + Join(";", Patterns(mimes[0].1));
    }
    var last := entries[|entries| - 1];
    var lastExts := mimes[|mimes| - 1].1;
    var pats := Patterns(lastExts);
    JoinEnds(";", pats);
    var tail := "*" + lastExts[|lastExts| - 1];
    assert pats[|pats| - 1] == tail;
    var joined := Join(";", pats);
    assert last == (mimes[|mimes| - 1].0 + "|") + joined;
    assert last[|last| - |tail|..] == joined[|joined| - |tail|..];
    var all := ExportFilterSpec(mimes);
    assert all[..|first|] == first;
    assert all[..|mimes[0].0 + "|"|] == first[..|mimes[0].0 + "|"|];
    assert all[|all| - |last|..] == last;
    assert all[|all| - |tail|..] == last[|last| - |tail|..];
  }

  /** `Export`'s filter loop: `None` when the selection exports to nothing (null or empty list),
      else the filter list. */
  method ExportFilter(mimes: Option<seq<(string, seq<string>)>>) returns (r: Option<string>)
    ensures mimes.None? || mimes.value == [] ==> r.None?
    ensures mimes.Some? && mimes.value != [] ==> r == Some(ExportFilterSpec(mimes.value))
  {
    if mimes.None? || |mimes.value| == 0 {
      return None;
    }
    var ms := mimes.value;
    var filterList := "";
    ghost var entries: seq<string> := [];
    for i := 0 to |ms|
      invariant |entries| == i
      invariant forall k :: 0 <= k < i ==> entries[k] == FilterEntry(ms[k].0, ms[k].1)
      invariant filterList == Join("|", entries)
    {
      var extensions := ms[i].1;
      var filter := ms[i].0 + "|";
      for j := 0 to |extensions|
        invariant filter == ms[i].0 + "|" + Join(";", Patterns(extensions[..j]))
      {
        if j > 0 {
          filter := filter + ";";
        }
        filter := filter + "*" + extensions[j];
        assert Patterns(extensions[..j + 1]) == Patterns(extensions[..j]) + ["*" + extensions[j]];
        if j > 0 {
          JoinSnoc(";", Patterns(extensions[..j]), "*" + extensions[j]);
        }
      }
      assert extensions[..|extensions|] == extensions;
      if i > 0 {
        filterList := filterList + "|";
        JoinSnoc("|", entries, filter);
      }
      filterList := filterList + filter;
      entries := entries + [filter];
    }
    assert entries == seq(|ms|, k requires 0 <= k < |ms| => FilterEntry(ms[k].0, ms[k].1));
    r := Some(filterList);
  }

  /** The saved path: kept when it already ends, ignoring case, with one of the type's
      extensions, otherwise with the first extension appended. */
  function ExportPathFor(path: string, extensions: seq<string>): (r: string)
    requires extensions != []
    ensures (exists k :: 0 <= k < |extensions| && EndsWithIgnoreCase(path, extensions[k])) ==> r == path
    ensures (forall k :: 0 <= k < |extensions| ==> !EndsWithIgnoreCase(path, extensions[k])) ==> r == path + extensions[0]
  {
    if exists k :: 0 <= k < |extensions| && EndsWithIgnoreCase(path, extensions[k]) then path else path + extensions[0]
  }

  /** A path already ends with its own extension. */
  lemma EndsWithOwnExtension(path: string, ext: string)
    ensures EndsWithIgnoreCase(path + ext, ext)
  {
    assert (path + ext)[|path + ext| - |ext|..] == ext;
  }

  /** Fixing the extension twice is fixing it once. */
  lemma ExportPathIdempotent(path: string, extensions: seq<string>)
    requires extensions != []
    ensures exists k :: 0 <= k < |extensions| && EndsWithIgnoreCase(ExportPathFor(path, extensions), extensions[k])
    ensures ExportPathFor(ExportPathFor(path, extensions), extensions) == ExportPathFor(path, extensions)
  {
    if forall k :: 0 <= k < |extensions| ==> !EndsWithIgnoreCase(path, extensions[k]) {
      EndsWithOwnExtension(path, extensions[0]);
    }
  }

  /** `Export`'s extension loop: `None` (no export) when the chosen type has no extension. */
  method ExportPath(filePath: string, extensions: seq<string>) returns (r: Option<string>)
    ensures r.Some? <==> extensions != []
    ensures extensions != [] ==> r == Some(ExportPathFor(filePath, extensions))
  {
    if |extensions| == 0 {
      return None;
    }
    var ext := 0;
    while ext < |extensions|
      invariant 0 <= ext <= |extensions|
      invariant forall k :: 0 <= k < ext ==> !EndsWithIgnoreCase(filePath, extensions[k])
    {
      if EndsWithIgnoreCase(filePath, extensions[ext]) {
        break;
      }
      ext := ext + 1;
    }
    var path := filePath;
    if ext >= |extensions| {
      path := path + extensions[0];
    }
    r := Some(path);
  }

  // ---------------------------------------------------------------------------------------
  // Adding an image

  datatype ImageMime = Jpeg | Png | Gif

  /** The image types in the order they are tried. */
  const ImageMimes: seq<ImageMime> := [Jpeg, Png, Gif]

  /** All extensions of the image types, in order. */
  function Flatten(lists: seq<seq<string>>): seq<string> {
    if lists == [] then [] else lists[0] + Flatten(lists[1..])
  }

  function StarSemis(extensions: seq<string>): string {
    if extensions == [] then "" else "*" + extensions[0] + ";" + StarSemis(extensions[1..])
  }

  /** `AddImage`'s filter: `Image|` and `*ext;` per extension, less the last character. */
  function ImageFilterSpec(lists: seq<seq<string>>): string {
    var s := "Image|" + StarSemis(Flatten(lists));
    s[..|s| - 1]
  }

  lemma {:induction false} StarSemisJoin(extensions: seq<string>)
    requires extensions != []
    ensures StarSemis(extensions) == Join(";", Patterns(extensions)) + ";"
  {
    if |extensions| > 1 {
      StarSemisJoin(extensions[1..]);
      assert Patterns(extensions) == ["*" + extensions[0]] + Patterns(extensions[1..]);
      JoinCons(";", "*" + extensions[0], Patterns(extensions[1..]));
    }
  }

  /** With at least one extension the filter is `Image|` and the patterns separated by `;`;
      with none, dropping the last character eats the `|`. */
  lemma ImageFilterShape(lists: seq<seq<string>>)
    ensures Flatten(lists) != [] ==> ImageFilterSpec(lists) == "Image|" + Join(";", Patterns(Flatten(lists)))
    ensures Flatten(lists) == [] ==> ImageFilterSpec(lists) == "Image"
  {
    if Flatten(lists) != [] {
      StarSemisJoin(Flatten(lists));
      var body := Join(";", Patterns(Flatten(lists)));
      assert ("Image|" + body + ";")[..|"Image|" + body + ";"| - 1] == "Image|" + body;
    }
  }

  lemma {:induction false} StarSemisAppend(a: seq<string>, b: seq<string>)
    ensures StarSemis(a + b) == StarSemis(a) + StarSemis(b)
  {
    if a == [] {
      assert a + b == b;
    } else {
      assert (a + b)[0] == a[0] && (a + b)[1..] == a[1..] + b;
      StarSemisAppend(a[1..], b);
    }
  }

  lemma {:induction false} FlattenSnoc(lists: seq<seq<string>>, l: seq<string>)
    ensures Flatten(lists + [l]) == Flatten(lists) + l
  {
    if lists == [] {
      assert [l][1..] == [];
    } else {
      assert (lists + [l])[1..] == lists[1..] + [l];
      FlattenSnoc(lists[1..], l);
    }
  }

  /** `AddImage`'s filter loop. */
  method ImageFilter(lists: seq<seq<string>>) returns (filter: string)
    ensures filter == ImageFilterSpec(lists)
  {
    filter := "Image|";
    for i := 0 to |lists|
      invariant filter == "Image|" + StarSemis(Flatten(lists[..i]))
    {
      var extensionList := lists[i];
      ghost var done := Flatten(lists[..i]);
      assert done + extensionList[..0] == done;
      for j := 0 to |extensionList|
        invariant filter == "Image|" + StarSemis(done + extensionList[..j])
      {
        var e := extensionList[j];
        ghost var before := done + extensionList[..j];
        filter := filter + "*" + e + ";";
        StarSemisAppend(before, [e]);
        assert [e][1..] == [];
        assert StarSemis([e]) == "*" + e + ";";
        assert done + extensionList[..j + 1] == before + [e];
      }
      assert lists[..i + 1] == lists[..i] + [lists[i]];
      FlattenSnoc(lists[..i], lists[i]);
      assert extensionList[..|extensionList|] == extensionList;
    }
    assert lists[..|lists|] == lists;
    filter := filter[..|filter| - 1];
  }

  /** Whether the type at position `i` lists the extension, ignoring case. */
  predicate Lists(lists: seq<seq<string>>, i: nat, ext: string)
    requires i < |lists|
  {
    exists e :: e in lists[i] && EqualsIgnoreCase(ext, e)
  }

  /** The first image type whose extensions include the file's; `None` if none does. */
  function MimeFor(ext: string, lists: seq<seq<string>>): (r: Option<nat>)
    ensures r.Some? ==> r.value < |lists| && Lists(lists, r.value, ext)
    ensures r.Some? ==> forall i :: 0 <= i < r.value ==> !Lists(lists, i, ext)
    ensures r.None? ==> forall i :: 0 <= i < |lists| ==> !Lists(lists, i, ext)
    decreases |lists|
  {
    if lists == [] then None
    else if Lists(lists, 0, ext) then Some(0)
    else
      var r := MimeFor(ext, lists[1..]);
      assert forall i :: 1 <= i < |lists| ==> (Lists(lists, i, ext) <==> Lists(lists[1..], i - 1, ext));
      if r.None? then None else Some(r.value + 1)
  }

  /** The type found is the first one listing the extension. */
  lemma MimeForFirst(ext: string, lists: seq<seq<string>>, i: nat)
    requires i < |lists| && Lists(lists, i, ext)
    requires forall k :: 0 <= k < i ==> !Lists(lists, k, ext)
    ensures MimeFor(ext, lists) == Some(i)
  {
  }

  /** `AddImage`'s search for the MIME type: `Err` where the source throws. */
  method FindImageMime(fileExtension: string, jpeg: seq<string>, png: seq<string>, gif: seq<string>)
    returns (r: Result<ImageMime, string>)
    ensures var m := MimeFor(fileExtension, [jpeg, png, gif]);
      && (m.Some? ==> r == Ok(ImageMimes[m.value]))
      && (m.None? ==> r == Err("AddImage: error identifying mime type from file extension"))
  {
    var extensionTypes := [jpeg, png, gif];
    var found: Option<ImageMime> := None;
    var i := 0;
    while i < |extensionTypes| && found.None?
      invariant 0 <= i <= |extensionTypes|
      invariant found.None? ==> forall k :: 0 <= k < i ==> !Lists(extensionTypes, k, fileExtension)
      invariant found.Some? ==> i > 0 && MimeFor(fileExtension, extensionTypes) == Some(i - 1) && found == Some(ImageMimes[i - 1])
    {
      var extensionType := extensionTypes[i];
      for j := 0 to |extensionType|
        invariant found.None? ==> forall q :: 0 <= q < j ==> !EqualsIgnoreCase(fileExtension, extensionType[q])
        invariant found.Some? ==> Lists(extensionTypes, i, fileExtension) && found == Some(ImageMimes[i])
      {
        if EqualsIgnoreCase(fileExtension, extensionType[j]) {
          found := Some(ImageMimes[i]);
          break;
        }
      }
      if found.Some? {
        MimeForFirst(fileExtension, extensionTypes, i);
      } else {
        assert !Lists(extensionTypes, i, fileExtension) by {
          forall e | e in extensionType
            ensures !EqualsIgnoreCase(fileExtension, e)
          {
            var q :| 0 <= q < |extensionType| && extensionType[q] == e;
          }
        }
      }
      i := i + 1;
    }
    if found.None? {
      r := Err("AddImage: error identifying mime type from file extension");
    } else {
      r := Ok(found.value);
    }
  }

  /** The type found does not depend on the case of the extension the user typed. */
  lemma MimeForIgnoresCase(ext: string, lists: seq<seq<string>>)
    ensures MimeFor(ToLower(ext), lists) == MimeFor(ext, lists)
    decreases |lists|
  {
    LowerIdempotent(ext);
    assert forall e :: EqualsIgnoreCase(ToLower(ext), e) == EqualsIgnoreCase(ext, e);
    if lists != [] {
      MimeForIgnoresCase(ext, lists[1..]);
    }
  }

  lemma LowerIdempotent(s: string)
    ensures ToLower(ToLower(s)) == ToLower(s)
  {
  }

  // ---------------------------------------------------------------------------------------
  // Untitled file names

  /** `Path.Combine` for a relative second part: a `\` is added unless the first part is
      empty or already ends with one. */
  function Combine(a: string, b: string): (r: string)
    ensures |r| >= |b|
  {
    if a == "" then b else if EndsWith(a, "\\") then a + b else a + "\\" + b
  }

  function BaseName(index: nat): string {
    "File" + NatToString(index) + ".iink"
  }

  function UntitledFile(localFolder: string, index: nat): string {
    Combine(Combine(localFolder, "MyScript"), BaseName(index))
  }

  function UntitledFolder(tempFolder: string, index: nat): string {
    Combine(tempFolder, BaseName(index) + "-file")
  }

  /** Whether the name for `index` is taken: a file exists at its path or at its temp-folder
      path (`File.Exists` on the folder name, which a directory does not satisfy). */
  predicate Taken(localFolder: string, tempFolder: string, existing: seq<string>, index: nat) {
    UntitledFile(localFolder, index) in existing || UntitledFolder(tempFolder, index) in existing
  }

  function Pow10(n: nat): nat {
    if n == 0 then 1 else 10 * Pow10(n - 1)
  }

  function MaxLength(paths: seq<string>): (r: nat)
    ensures forall p :: p in paths ==> |p| <= r
  {
    if paths == [] then 0
    else
      var rest := MaxLength(paths[1..]);
      assert forall p :: p in paths ==> p == paths[0] || p in paths[1..];
      if |paths[0]| > rest then |paths[0]| else rest
  }

  /** A number of at least `10^n` has more than `n` digits. */
  lemma {:induction false} DigitsGrow(k: nat, n: nat)
    requires k >= Pow10(n)
    ensures |NatToString(k)| > n
  {
    if n > 0 {
      DigitsGrow(k / 10, n - 1);
    }
  }

  /** Names past `10^L`, for `L` the longest existing path, are free. */
  lemma LargeIndexFree(localFolder: string, tempFolder: string, existing: seq<string>, index: nat)
    requires index >= Pow10(MaxLength(existing))
    ensures !Taken(localFolder, tempFolder, existing, index)
  {
    DigitsGrow(index, MaxLength(existing));
  }

  /** Only indices below `10^L` can be taken. */
  lemma TakenIsBounded(localFolder: string, tempFolder: string, existing: seq<string>, index: nat)
    ensures Taken(localFolder, tempFolder, existing, index) ==> index < Pow10(MaxLength(existing))
  {
    if index >= Pow10(MaxLength(existing)) {
      LargeIndexFree(localFolder, tempFolder, existing, index);
    }
  }

  /** The loop of `MakeUntitledFilename`: the first free index from `start` on. */
  /** Every index in [start, end) names a file or folder that is already there. */
  ghost predicate AllTaken(localFolder: string, tempFolder: string, existing: seq<string>, start: nat, end: nat) {
    forall k :: start <= k < end ==> Taken(localFolder, tempFolder, existing, k)
  }

  lemma AllTakenExtend(localFolder: string, tempFolder: string, existing: seq<string>, start: nat, end: nat)
    requires AllTaken(localFolder, tempFolder, existing, start, end)
    requires Taken(localFolder, tempFolder, existing, end)
    ensures AllTaken(localFolder, tempFolder, existing, start, end + 1)
  {
  }

  method FirstFreeIndex(localFolder: string, tempFolder: string, existing: seq<string>, start: nat)
    returns (index: nat)
    ensures index >= start && !Taken(localFolder, tempFolder, existing, index)
    ensures AllTaken(localFolder, tempFolder, existing, start, index)
  {
    index := start;
    while Taken(localFolder, tempFolder, existing, index)
      invariant index >= start
      invariant AllTaken(localFolder, tempFolder, existing, start, index)
      decreases Pow10(MaxLength(existing)) - index
    {
      TakenIsBounded(localFolder, tempFolder, existing, index);
      AllTakenExtend(localFolder, tempFolder, existing, start, index);
      index := index + 1;
    }
  }


  // ---------------------------------------------------------------------------------------
  // The window

  /** The pen-width menu items. */
  datatype WidthItem = Thin | Medium | Large

  class MainWindow {
    var filenameIndex: nat
    /** The index of the editor's part in its package; `None` without a part. */
    var part: Option<nat>
    var penThin: bool
    var penMedium: bool
    var penLarge: bool
    var styles: StyleSettings
    /** The `SetToolStyle` calls made, oldest first. */
    var toolStyles: seq<(PointerTool, string)>

    predicate OneWidth()
      reads this
    {
      (if penThin then 1 else 0) + (if penMedium then 1 else 0) + (if penLarge then 1 else 0) == 1
    }

    function Checked(item: WidthItem): bool
      reads this
    {
      match item
      case Thin => penThin
      case Medium => penMedium
      case Large => penLarge
    }

    constructor ()
      ensures filenameIndex == 0 && part.None? && OneWidth() && penMedium && toolStyles == []
    {
      filenameIndex := 0;
      part := None;
      penThin, penMedium, penLarge := false, true, false;
      styles := StyleSettings(None, None, None, None);
      toolStyles := [];
    }

    /** `MakeUntitledFilename`: the first index past the current one whose name is free. */
    method MakeUntitledFilename(localFolder: string, tempFolder: string, existing: seq<string>)
      returns (fileName: string)
      modifies this
      ensures filenameIndex > old(filenameIndex)
      ensures fileName == UntitledFile(localFolder, filenameIndex)
      ensures !Taken(localFolder, tempFolder, existing, filenameIndex)
      ensures forall k :: old(filenameIndex) < k < filenameIndex ==> Taken(localFolder, tempFolder, existing, k)
      ensures part == old(part) && toolStyles == old(toolStyles) && styles == old(styles)
      ensures penThin == old(penThin) && penMedium == old(penMedium) && penLarge == old(penLarge)
    {
      filenameIndex := FirstFreeIndex(localFolder, tempFolder, existing, filenameIndex + 1);
      fileName := UntitledFile(localFolder, filenameIndex);
    }

    /** `Previous_Click`: the nearest earlier part the editor accepts; the current part stays
        when there is none. */
    method PreviousPart(canSet: nat -> bool)
      modifies this
      ensures old(part).Some? && old(part).value > 0 && (exists k :: 0 <= k < old(part).value && canSet(k)) ==>
        part.Some? && part.value < old(part).value && canSet(part.value)
        && forall k :: part.value < k < old(part).value ==> !canSet(k)
      ensures old(part).None? || old(part).value == 0 || (forall k :: 0 <= k < old(part).value ==> !canSet(k)) ==>
        part == old(part)
      ensures filenameIndex == old(filenameIndex) && toolStyles == old(toolStyles) && styles == old(styles)
      ensures penThin == old(penThin) && penMedium == old(penMedium) && penLarge == old(penLarge)
    {
      if part.None? {
        return;
      }
      var current := part.value;
      var index: int := current;
      if index > 0 {
        part := None;
        index := index - 1;
        while index >= 0
          invariant -1 <= index < current
          invariant forall k :: index < k < current ==> !canSet(k)
          invariant part.None?
          invariant filenameIndex == old(filenameIndex) && toolStyles == old(toolStyles) && styles == old(styles)
          invariant penThin == old(penThin) && penMedium == old(penMedium) && penLarge == old(penLarge)
        {
          if canSet(index) {
            part := Some(index);
            break;
          }
          part := None;
          index := index - 1;
        }
        if index < 0 {
          part := Some(current);
        }
      }
    }

    /** `Next_Click`: the nearest later part the editor accepts; the current part stays when
        there is none. */
    method NextPart(count: nat, canSet: nat -> bool)
      modifies this
      ensures old(part).Some? && old(part).value < count - 1 && (exists k :: old(part).value < k < count && canSet(k)) ==>
        part.Some? && old(part).value < part.value < count && canSet(part.value)
        && forall k :: old(part).value < k < part.value ==> !canSet(k)
      ensures old(part).None? || old(part).value >= count - 1 || (forall k :: old(part).value < k < count ==> !canSet(k)) ==>
        part == old(part)
      ensures filenameIndex == old(filenameIndex) && toolStyles == old(toolStyles) && styles == old(styles)
      ensures penThin == old(penThin) && penMedium == old(penMedium) && penLarge == old(penLarge)
    {
      if part.None? {
        return;
      }
      var current := part.value;
      var index := current;
      if index < count - 1 {
        part := None;
        index := index + 1;
        while index < count
          invariant current < index <= count
          invariant forall k :: current < k < index ==> !canSet(k)
          invariant part.None?
          invariant filenameIndex == old(filenameIndex) && toolStyles == old(toolStyles) && styles == old(styles)
          invariant penThin == old(penThin) && penMedium == old(penMedium) && penLarge == old(penLarge)
        {
          if canSet(index) {
            part := Some(index);
            break;
          }
          part := None;
          index := index + 1;
        }
        if index >= count {
          part := Some(current);
        }
      }
    }

    /** `PenWidth_Clicked(item)` itself: a checked item clears the other two, sets the pen
        width and applies the pen style; an unchecked item is checked again and nothing else
        changes. The window's load handler calls it once for the medium item, which the menu
        declares checked. */
    method PenWidthHandler(item: WidthItem, widthText: WidthItem -> string)
      modifies this
      ensures Checked(item)
      ensures old(Checked(item)) ==>
        (OneWidth()
         && styles == old(styles).(penWidth := Some(widthText(item)))
         && toolStyles == old(toolStyles) + [(PenTool, ToolStyle(Some(widthText(item)), old(styles).penColor))])
      ensures !old(Checked(item)) ==>
        (penThin == (old(penThin) || item == Thin) && penMedium == (old(penMedium) || item == Medium)
         && penLarge == (old(penLarge) || item == Large)
         && styles == old(styles) && toolStyles == old(toolStyles))
      ensures filenameIndex == old(filenameIndex) && part == old(part)
    {
      if Checked(item) {
        match item {
          case Thin => penMedium, penLarge := false, false;
          case Large => penThin, penMedium := false, false;
          case Medium => penThin, penLarge := false, false;
        }
        styles := styles.(penWidth := Some(widthText(item)));
        var call := ApplyToolStyle(PenTool, styles);
        toolStyles := toolStyles + [call.value];
      } else {
        match item {
          case Thin => penThin := true;
          case Medium => penMedium := true;
          case Large => penLarge := true;
        }
      }
    }

    /** A click on a pen-width item: the menu toggles `item`, then `PenWidth_Clicked` runs. A
        newly checked item clears the other two and sets the pen width; an item clicked while
        checked is checked again. */
    method PenWidthClicked(item: WidthItem, widthText: WidthItem -> string)
      requires OneWidth()
      modifies this
      ensures OneWidth() && Checked(item)
      ensures old(Checked(item)) ==>
        (penThin == old(penThin) && penMedium == old(penMedium) && penLarge == old(penLarge)
         && styles == old(styles) && toolStyles == old(toolStyles))
      ensures !old(Checked(item)) ==>
        (styles == old(styles).(penWidth := Some(widthText(item)))
         && toolStyles == old(toolStyles) + [(PenTool, ToolStyle(Some(widthText(item)), old(styles).penColor))])
      ensures filenameIndex == old(filenameIndex) && part == old(part)
    {
      match item {
        case Thin => penThin := !penThin;
        case Medium => penMedium := !penMedium;
        case Large => penLarge := !penLarge;
      }
      PenWidthHandler(item, widthText);
    }
  }
}
