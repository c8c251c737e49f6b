/**
 * `SmartGuideUserControl`: the strip above a text block that shows its recognized words and
 * highlights the ones that changed since the previous update.
 *
 * The engine's block objects, the JIIX export (parsed to labels and candidates), the
 * configuration and the timers are replaced by values: a block is its id, type and validity;
 * an export is the parsed word list, or `None` when the export throws; a timer is whether it
 * runs and its interval.
 */
module SmartGuide {
  import opened Wrappers
  import opened Strings

  /** A recognized word; `candidates` is `None` for a null list. */
  datatype Word = Word(text: string, updated: bool, candidates: Option<seq<string>>)

  function Labels(words: seq<Word>): seq<string> {
    seq(|words|, i requires 0 <= i < |words| => words[i].text)
  }

  // ---------------------------------------------------------------------------------------
  // Word-level edit distance

  function Min(x: nat, y: nat): nat {
    if x <= y then x else y
  }

  function Mismatch(x: string, y: string): nat {
    if x == y then 0 else 1
  }

  /** The Levenshtein distance between two word sequences, counting whole words. */
  function Distance(a: seq<string>, b: seq<string>): nat
    decreases |a| + |b|
  {
    if |a| == 0 then |b|
    else if |b| == 0 then |a|
    else Min(Min(Distance(a[..|a| - 1], b) + 1, Distance(a, b[..|b| - 1]) + 1),
             Distance(a[..|a| - 1], b[..|b| - 1]) + Mismatch(a[|a| - 1], b[|b| - 1]))
  }

  /** The recurrence the table fill applies at cell (i, j), on its three neighbours' values. */
  lemma CellStep(a: seq<string>, b: seq<string>, i: nat, j: nat, up: nat, left: nat, diag: nat)
    requires 1 <= i <= |a| && 1 <= j <= |b|
    requires up == Distance(a[..i - 1], b[..j]) && left == Distance(a[..i], b[..j - 1])
    requires diag == Distance(a[..i - 1], b[..j - 1])
    ensures Distance(a[..i], b[..j]) == Min(Min(up + 1, left + 1), diag + Mismatch(a[i - 1], b[j - 1]))
  {
    assert a[..i][..i - 1] == a[..i - 1];
    assert b[..j][..j - 1] == b[..j - 1];
  }

  /** A sequence is at distance 0 from itself. */
  lemma {:induction false} DistanceSelf(a: seq<string>)
    ensures Distance(a, a) == 0
  {
    if |a| > 0 {
      DistanceSelf(a[..|a| - 1]);
    }
  }

  /** The distance is at least the difference in length and at most the longer length. */
  lemma {:induction false} DistanceBounds(a: seq<string>, b: seq<string>)
    ensures |a| - |b| <= Distance(a, b) && |b| - |a| <= Distance(a, b)
    ensures Distance(a, b) <= if |a| <= |b| then |b| else |a|
    decreases |a| + |b|
  {
    if |a| > 0 && |b| > 0 {
      DistanceBounds(a[..|a| - 1], b);
      DistanceBounds(a, b[..|b| - 1]);
      DistanceBounds(a[..|a| - 1], b[..|b| - 1]);
    }
  }

  /** The distance does not depend on which sequence comes first. */
  lemma {:induction false} DistanceSymmetric(a: seq<string>, b: seq<string>)
    ensures Distance(a, b) == Distance(b, a)
    decreases |a| + |b|
  {
    if |a| > 0 && |b| > 0 {
      DistanceSymmetric(a[..|a| - 1], b);
      DistanceSymmetric(a, b[..|b| - 1]);
      DistanceSymmetric(a[..|a| - 1], b[..|b| - 1]);
    }
  }

  /** The first `rows` rows of the table hold the distances between prefixes of `a` and `b`. */
  ghost predicate Filled(d: array2<nat>, a: seq<string>, b: seq<string>, rows: nat)
    reads d
    requires d.Length0 == |a| + 1 && d.Length1 == |b| + 1 && rows <= |a| + 1
  {
    forall p, q :: 0 <= p < rows && 0 <= q <= |b| ==> d[p, q] == Distance(a[..p], b[..q])
  }

  /** The inner loop of the table fill: row `i` from row `i - 1` and the first column. */
  method FillRow(a: seq<string>, b: seq<string>, d: array2<nat>, i: nat)
    requires d.Length0 == |a| + 1 && d.Length1 == |b| + 1 && 1 <= i <= |a|
    requires Filled(d, a, b, i) && forall p :: i <= p <= |a| ==> d[p, 0] == p
    modifies d
    ensures Filled(d, a, b, i + 1) && forall p :: i < p <= |a| ==> d[p, 0] == p
  {
    for j := 1 to |b| + 1
      invariant Filled(d, a, b, i) && forall p :: i <= p <= |a| ==> d[p, 0] == p
      invariant forall q :: 0 <= q < j ==> d[i, q] == Distance(a[..i], b[..q])
    {
      FillCell(a, b, d, i, j);
    }
  }

  /** One cell of the table, from the cells above, to the left and diagonally up-left. */
  method FillCell(a: seq<string>, b: seq<string>, d: array2<nat>, i: nat, j: nat)
    requires d.Length0 == |a| + 1 && d.Length1 == |b| + 1 && 1 <= i <= |a| && 1 <= j <= |b|
    requires d[i - 1, j] == Distance(a[..i - 1], b[..j])
    requires d[i, j - 1] == Distance(a[..i], b[..j - 1])
    requires d[i - 1, j - 1] == Distance(a[..i - 1], b[..j - 1])
    modifies d
    ensures d[i, j] == Distance(a[..i], b[..j])
    ensures forall p, q :: 0 <= p < d.Length0 && 0 <= q < d.Length1 && (p != i || q != j) ==> d[p, q] == old(d[p, q])
  {
    var up, left, diag := d[i - 1, j], d[i, j - 1], d[i - 1, j - 1];
    var cell := Min(Min(up + 1, left + 1), diag + Mismatch(a[i - 1], b[j - 1]));
    CellStep(a, b, i, j, up, left, diag);
    d[i, j] := cell;
  }

  /** The first half of `ComputeTextDifferences`: the table `d` with `d[i, j]` the distance
      between the first `i` labels of `a` and the first `j` labels of `b`. */
  method DistanceTable(a: seq<string>, b: seq<string>) returns (d: array2<nat>)
    ensures fresh(d) && d.Length0 == |a| + 1 && d.Length1 == |b| + 1
    ensures forall i, j :: 0 <= i <= |a| && 0 <= j <= |b| ==> d[i, j] == Distance(a[..i], b[..j])
  {
    d := new nat[|a| + 1, |b| + 1];
    for i := 0 to |a| + 1
      invariant forall p :: 0 <= p < i ==> d[p, 0] == p
    {
      d[i, 0] := i;
    }
    for j := 0 to |b| + 1
      invariant forall p :: 0 <= p <= |a| ==> d[p, 0] == p
      invariant forall q :: 0 <= q < j ==> d[0, q] == q
    {
      d[0, j] := j;
    }
    assert Filled(d, a, b, 1);
    for i := 1 to |a| + 1
      invariant Filled(d, a, b, i) && forall p :: i <= p <= |a| ==> d[p, 0] == p
    {
      FillRow(a, b, d, i);
    }
    assert Filled(d, a, b, |a| + 1);
  }

  /** The first pass of `ComputeTextDifferences`: every word is marked updated. */
  method MarkAllUpdated(s2: array<Word>)
    modifies s2
    ensures forall k :: 0 <= k < s2.Length ==> s2[k] == old(s2[k]).(updated := true)
  {
    for k := 0 to s2.Length
      invariant forall q :: 0 <= q < k ==> s2[q] == old(s2[q]).(updated := true)
      invariant forall q :: k <= q < s2.Length ==> s2[q] == old(s2[q])
    {
      s2[k] := s2[k].(updated := true);
    }
  }

  /** One step of the walk: the word at `j` is updated exactly when its label differs from
      the paired word's; nothing else changes. */
  method MarkPair(w: Word, s2: array<Word>, j: nat)
    requires j < s2.Length
    modifies s2
    ensures s2[j] == old(s2[j]).(updated := w.text != old(s2[j]).text)
    ensures forall q :: 0 <= q < s2.Length && q != j ==> s2[q] == old(s2[q])
  {
    s2[j] := s2[j].(updated := w.text != s2[j].text);
  }

  /** The backward walk of `ComputeTextDifferences`: from the bottom-right corner of the
      table it steps diagonally, up or left, re-marking the word of `s2` it pairs with a
      word of `s1`; on identical label lists it stays on the diagonal. */
  method Backtrace(s1: seq<Word>, s2: array<Word>, d: array2<nat>)
    requires |s1| > 0 && s2.Length > 0
    requires d.Length0 == |s1| + 1 && d.Length1 == s2.Length + 1
    requires forall i, j :: 0 <= i <= |s1| && 0 <= j <= s2.Length ==> d[i, j] == Distance(Labels(s1)[..i], Labels(s2[..])[..j])
    requires forall k :: 0 <= k < s2.Length ==> s2[k].updated
    modifies s2
    ensures forall k :: 0 <= k < s2.Length ==> s2[k].(updated := old(s2[k].updated)) == old(s2[k])
    ensures forall k :: 0 <= k < s2.Length && !s2[k].updated ==> exists p :: 0 <= p < |s1| && s1[p].text == s2[k].text
    ensures Labels(s1) == Labels(old(s2[..])) ==> forall k :: 0 <= k < s2.Length ==> !s2[k].updated
  {
    var len1 := |s1|;
    var len2 := s2.Length;
    ghost var same := Labels(s1) == Labels(s2[..]);
    ghost var a := Labels(s1);
    var i, j := len1, len2;
    while j > 0
      invariant 0 <= i <= len1 && 0 <= j <= len2
      invariant forall q :: 0 <= q < len2 ==> s2[q].(updated := old(s2[q].updated)) == old(s2[q])
      invariant forall q :: 0 <= q < len2 && !s2[q].updated ==> exists p :: 0 <= p < len1 && s1[p].text == s2[q].text
      invariant same ==> i == j && forall q :: j <= q < len2 ==> !s2[q].updated
      decreases i + j
    {
      if same {
        DistanceSelf(a[..i - 1]);
        assert d[i - 1, j - 1] == 0;
      }
      var d01 := d[i, j - 1] as int;
      var d11 := if i > 0 then d[i - 1, j - 1] as int else -1;
      var d10 := if i > 0 then d[i - 1, j] as int else -1;
      if d11 >= 0 && d11 <= d10 && d11 <= d01 {
        i, j := i - 1, j - 1;
      } else if d10 >= 0 && d10 <= d11 && d10 <= d01 {
        i := i - 1;
      } else {
        j := j - 1;
      }
      if i < len1 && j < len2 {
        if same {
          assert s1[i].text == a[i] == Labels(old(s2[..]))[j] == s2[j].text;
        }
        MarkPair(s1[i], s2, j);
      }
    }
  }

  /** `ComputeTextDifferences(s1, s2)`: every word of `s2` is first marked updated; then a
      backward walk through the distance table re-marks each word it pairs with a word of
      `s1`, as updated exactly when the labels differ.  Only the flags of `s2` change. */
  method ComputeTextDifferences(s1: seq<Word>, s2: array<Word>)
    modifies s2
    ensures forall k :: 0 <= k < s2.Length ==> s2[k].(updated := old(s2[k].updated)) == old(s2[k])
    ensures |s1| == 0 || s2.Length == 0 ==> forall k :: 0 <= k < s2.Length ==> s2[k].updated
    ensures forall k :: 0 <= k < s2.Length && !s2[k].updated ==> exists p :: 0 <= p < |s1| && s1[p].text == s2[k].text
    ensures Labels(s1) == Labels(old(s2[..])) ==> forall k :: 0 <= k < s2.Length ==> !s2[k].updated
  {
    var d := DistanceTable(Labels(s1), Labels(s2[..]));
    ghost var before := s2[..];
    MarkAllUpdated(s2);
    assert Labels(s2[..]) == Labels(before);
    if |s1| > 0 && s2.Length > 0 {
      Backtrace(s1, s2, d);
    }
  }

  // ---------------------------------------------------------------------------------------
  // Copying the word list

  /** What the copy loop of `CloneWords` makes of one word: text and flag are copied, but a
      candidate list becomes a new list filled by iterating over itself, so it stays empty. */
  function ClonedAsWritten(w: Word): Word {
    w.(candidates := if w.candidates.Some? then Some([]) else None)
  }

  /** `CloneWords` as written: null for null, otherwise a word-by-word copy whose candidate
      lists are all empty. */
  method CloneWordsAsWritten(from: Option<seq<Word>>) returns (to: Option<seq<Word>>)
    ensures from.None? <==> to.None?
    ensures from.Some? ==> |to.value| == |from.value|
    ensures from.Some? ==> forall i :: 0 <= i < |from.value| ==> to.value[i] == ClonedAsWritten(from.value[i])
  {
    if from.None? {
      return None;
    }
    var words := from.value;
    var copy: seq<Word> := [];
    for i := 0 to |words|
      invariant |copy| == i
      invariant forall k :: 0 <= k < i ==> copy[k] == ClonedAsWritten(words[k])
    {
      var w := words[i];
      var candidates: Option<seq<string>> := None;
      if w.candidates.Some? {
        // the source iterates over the list it has just created, which is empty
        candidates := Some([]);
      }
      copy := copy + [Word(w.text, w.updated, candidates)];
    }
    to := Some(copy);
  }

  /** A word that has candidates loses them in the copy. */
  lemma CloneWordsDropsCandidates(w: Word)
    requires w.candidates.Some? && w.candidates.value != []
    ensures ClonedAsWritten(w) != w
    ensures ClonedAsWritten(w).text == w.text && ClonedAsWritten(w).updated == w.updated
  {
    assert ClonedAsWritten(w).candidates.value == [];
  }

  /** `CloneWords` as intended: each word and each candidate list copied element by element;
      the copy equals the original. */
  method CloneWords(from: Option<seq<Word>>) returns (to: Option<seq<Word>>)
    ensures to == from
  {
    if from.None? {
      return None;
    }
    var words := from.value;
    var copy: seq<Word> := [];
    for i := 0 to |words|
      invariant copy == words[..i]
    {
      var w := words[i];
      var candidates: Option<seq<string>> := None;
      if w.candidates.Some? {
        var list: seq<string> := [];
        for c := 0 to |w.candidates.value|
          invariant list == w.candidates.value[..c]
        {
          list := list + [w.candidates.value[c]];
        }
        assert list == w.candidates.value;
        candidates := Some(list);
      }
      copy := copy + [Word(w.text, w.updated, candidates)];
    }
    assert copy == words[..|words|] == words;
    to := Some(copy);
  }

  // ---------------------------------------------------------------------------------------
  // Widget decisions

  /** A content block: its id, its type, and whether the engine still knows it. */
  datatype Block = Block(id: string, blockType: string, valid: bool)

  datatype UpdateCause = Visual | Edit | Selection | View

  /** The fade-out delays (ms) from the configuration. */
  datatype Delays = Delays(writeInDiagram: int, write: int, other: int, removeHighlight: int)

  /** The defaults used when the configuration has no value. */
  const DefaultDelays := Delays(3000, 0, 0, 2000)

  /** The fade-out delay after an update: an edit in a diagram, another edit, or anything else. */
  function FadeDelay(cause: UpdateCause, blockId: string, delays: Delays): (r: int)
    ensures cause == Edit && StartsWith(blockId, "diagram/") ==> r == delays.writeInDiagram
    ensures cause == Edit && !StartsWith(blockId, "diagram/") ==> r == delays.write
    ensures cause != Edit ==> r == delays.other
  {
    if cause == Edit then (if StartsWith(blockId, "diagram/") then delays.writeInDiagram else delays.write)
    else delays.other
  }

  /** With the default delays the guide fades out by itself only after writing in a diagram. */
  lemma DefaultFadeOnlyInDiagrams(cause: UpdateCause, blockId: string)
    ensures FadeDelay(cause, blockId, DefaultDelays) > 0 <==> cause == Edit && StartsWith(blockId, "diagram/")
  {
  }

  /** The selection decision: by id when both blocks exist, otherwise by reference, which with
      a null on one side means "not both null". */
  function SelectionChanged(block: Option<Block>, current: Option<Block>): (r: bool)
    ensures r <==> (block.Some? != current.Some?) || (block.Some? && current.Some? && block.value.id != current.value.id)
  {
    if block.Some? && current.Some? then current.value.id != block.value.id
    else !(block.None? && current.None?)
  }

  /** A looked-up block that exists and is a text block. */
  predicate IsTextBlock(b: Option<Block>) {
    b.Some? && b.value.blockType == "Text"
  }

  /** The first id whose block exists and is a text block. */
  function FirstTextBlock(blockIds: seq<string>, lookup: string -> Option<Block>): (r: Option<Block>)
    ensures r.Some? ==> r.value.blockType == "Text"
    ensures r.Some? ==> exists i :: (0 <= i < |blockIds| && lookup(blockIds[i]) == r &&
                                     forall k :: 0 <= k < i ==> !IsTextBlock(lookup(blockIds[k])))
    ensures r.None? ==> forall i :: 0 <= i < |blockIds| ==> !IsTextBlock(lookup(blockIds[i]))
  {
    if blockIds == [] then None
    else
      var b := lookup(blockIds[0]);
      if IsTextBlock(b) then b
      else
        var r := FirstTextBlock(blockIds[1..], lookup);
        assert r.Some? ==> exists i :: (1 <= i < |blockIds| && lookup(blockIds[i]) == r &&
                                        forall k :: 0 <= k < i ==> !IsTextBlock(lookup(blockIds[k]))) by {
          if r.Some? {
            var j :| 0 <= j < |blockIds[1..]| && lookup(blockIds[1..][j]) == r &&
              forall k :: 0 <= k < j ==> !IsTextBlock(lookup(blockIds[1..][k]));
            assert forall k :: 0 <= k < j + 1 ==> !IsTextBlock(lookup(blockIds[k])) by {
              forall k | 0 <= k < j + 1 ensures !IsTextBlock(lookup(blockIds[k])) {
                if k > 0 { assert blockIds[k] == blockIds[1..][k - 1]; }
              }
            }
            assert lookup(blockIds[j + 1]) == r;
          }
        }
        r
  }

  /** One label in the strip: the word with line breaks shown as spaces, and its highlight. */
  datatype Item = Item(text: string, highlighted: bool)

  function ReplaceNewlines(s: string): (r: string)
    ensures |r| == |s|
    ensures forall i :: 0 <= i < |s| ==> r[i] == if s[i] == '\n' then ' ' else s[i]
  {
    seq(|s|, i requires 0 <= i < |s| => if s[i] == '\n' then ' ' else s[i])
  }

  function ItemOf(w: Word): Item {
    Item(ReplaceNewlines(w.text), w.updated)
  }

  /** The loop of `UpdateWidgets` over the words: one strip item per word, in order, and
      whether any word is highlighted. */
  method ShowWords(words: seq<Word>) returns (shown: seq<Item>, anyUpdated: bool)
    ensures |shown| == |words| && forall q :: 0 <= q < |words| ==> shown[q] == ItemOf(words[q])
    ensures anyUpdated <==> exists q :: 0 <= q < |words| && words[q].updated
  {
    shown, anyUpdated := [], false;
    for k := 0 to |words|
      invariant |shown| == k
      invariant forall q :: 0 <= q < k ==> shown[q] == ItemOf(words[q])
      invariant anyUpdated <==> exists q :: 0 <= q < k && words[q].updated
    {
      shown := shown + [ItemOf(words[k])];
      if words[k].updated {
        anyUpdated := true;
      }
    }
  }

  class SmartGuideControl {
    var activeBlock: Option<Block>
    var selectedBlock: Option<Block>
    var currentBlock: Option<Block>
    var currentWords: seq<Word>
    var previousBlock: Option<Block>
    var previousWords: seq<Word>
    var items: seq<Item>
    var visible: bool
    var timer1Running: bool
    var timer1Interval: int
    var timer2Running: bool
    var timer2Interval: int
    var delays: Delays

    constructor (delays: Delays)
      ensures activeBlock.None? && selectedBlock.None? && currentBlock.None? && previousBlock.None?
      ensures currentWords == [] && previousWords == [] && items == [] && !visible
      ensures !timer1Running && !timer2Running && this.delays == delays
    {
      activeBlock := None;
      selectedBlock := None;
      currentBlock := None;
      currentWords := [];
      previousBlock := None;
      previousWords := [];
      items := [];
      visible := false;
      timer1Running := false;
      timer1Interval := 0;
      timer2Running := false;
      timer2Interval := 0;
      this.delays := delays;
    }

    /** `BackupData`. The source copies the words with `CloneWords` as written, which drops their
        candidates; nothing reads the candidates of the previous words (the diff compares labels
        only), so the corrected copy is used here. */
    method BackupData()
      modifies this
      ensures previousBlock == old(currentBlock) && previousWords == old(currentWords)
      ensures currentBlock == old(currentBlock) && currentWords == old(currentWords)
      ensures selectedBlock == old(selectedBlock) && activeBlock == old(activeBlock)
      ensures items == old(items) && visible == old(visible) && delays == old(delays)
      ensures timer1Running == old(timer1Running) && timer2Running == old(timer2Running)
      ensures timer1Interval == old(timer1Interval) && timer2Interval == old(timer2Interval)
    {
      previousBlock := currentBlock;
      var copy := CloneWords(Some(currentWords));
      previousWords := copy.value;
    }

    /** `UpdateData`: reload the current block's words from its export (`None` when the export
        throws). Against the previous words of the same block they are diffed; otherwise none
        is marked updated. */
    method UpdateData(exported: Option<seq<(string, seq<string>)>>)
      modifies this
      ensures currentBlock.None? ==> currentWords == []
      ensures currentBlock.Some? && (!currentBlock.value.valid || exported.None?) ==> currentWords == old(currentWords)
      ensures currentBlock.Some? && currentBlock.value.valid && exported.Some? ==>
        var parsed := exported.value;
        && |currentWords| == |parsed|
        && (forall k :: 0 <= k < |parsed| ==> currentWords[k].text == parsed[k].0 && currentWords[k].candidates == Some(parsed[k].1))
        && (previousBlock.Some? && currentBlock.value.id == previousBlock.value.id ==>
              && (forall k :: 0 <= k < |parsed| && !currentWords[k].updated ==> exists p :: 0 <= p < |previousWords| && previousWords[p].text == parsed[k].0)
              && (Labels(previousWords) == Labels(currentWords) ==> forall k :: 0 <= k < |parsed| ==> !currentWords[k].updated)
              && (previousWords == [] ==> forall k :: 0 <= k < |parsed| ==> currentWords[k].updated))
        && (!(previousBlock.Some? && currentBlock.value.id == previousBlock.value.id) ==>
              forall k :: 0 <= k < |parsed| ==> !currentWords[k].updated)
      ensures currentBlock == old(currentBlock) && previousBlock == old(previousBlock) && previousWords == old(previousWords)
      ensures selectedBlock == old(selectedBlock) && activeBlock == old(activeBlock)
      ensures items == old(items) && visible == old(visible) && delays == old(delays)
      ensures timer1Running == old(timer1Running) && timer2Running == old(timer2Running)
      ensures timer1Interval == old(timer1Interval) && timer2Interval == old(timer2Interval)
    {
      if currentBlock.None? {
        currentWords := [];
      } else if currentBlock.value.valid {
        if exported.None? {
          return;
        }
        var parsed := exported.value;
        var words: seq<Word> := [];
        for k := 0 to |parsed|
          invariant |words| == k
          invariant forall q :: 0 <= q < k ==> words[q] == Word(parsed[q].0, false, Some(parsed[q].1))
        {
          words := words + [Word(parsed[k].0, false, Some(parsed[k].1))];
        }
        if previousBlock.Some? && currentBlock.value.id == previousBlock.value.id {
          var s2 := new Word[|words|](k requires 0 <= k < |words| => words[k]);
          assert s2[..] == words;
          ComputeTextDifferences(previousWords, s2);
          currentWords := s2[..];
          forall k | 0 <= k < |parsed| && !currentWords[k].updated
            ensures exists p :: 0 <= p < |previousWords| && previousWords[p].text == parsed[k].0
          {
            var p :| 0 <= p < |previousWords| && previousWords[p].text == s2[k].text;
            assert s2[k].text == words[k].text == parsed[k].0;
          }
        } else {
          for c := 0 to |words|
            invariant |words| == |parsed|
            invariant forall q :: 0 <= q < |parsed| ==> words[q].text == parsed[q].0 && words[q].candidates == Some(parsed[q].1)
            invariant forall q :: 0 <= q < c ==> !words[q].updated
          {
            words := words[c := words[c].(updated := false)];
          }
          currentWords := words;
        }
      }
    }

    method ResetWidgets()
      modifies this
      ensures !visible && items == []
      ensures currentBlock == old(currentBlock) && currentWords == old(currentWords)
      ensures previousBlock == old(previousBlock) && previousWords == old(previousWords)
      ensures selectedBlock == old(selectedBlock) && activeBlock == old(activeBlock) && delays == old(delays)
      ensures timer1Running == old(timer1Running) && timer2Running == old(timer2Running)
      ensures timer1Interval == old(timer1Interval) && timer2Interval == old(timer2Interval)
    {
      visible := false;
      items := [];
    }

    /** `UpdateWidgets`: the fade timer is stopped, then, for a current block, the strip shows
        its words (updated ones highlighted), the fade timer restarts when its delay is
        positive, and the highlight timer starts when a word is highlighted. */
    method UpdateWidgets(cause: UpdateCause)
      modifies this
      ensures currentBlock.None? ==> !visible && items == [] && !timer1Running && timer2Running == old(timer2Running)
      ensures currentBlock.Some? ==>
        var delay := FadeDelay(cause, currentBlock.value.id, delays);
        && visible
        && |items| == |currentWords|
        && (forall k :: 0 <= k < |items| ==> items[k] == ItemOf(currentWords[k]))
        && (timer1Running <==> delay > 0)
        && (delay > 0 ==> timer1Interval == delay)
        && ((exists k :: 0 <= k < |currentWords| && currentWords[k].updated) ==> timer2Running && timer2Interval == delays.removeHighlight)
        && ((forall k :: 0 <= k < |currentWords| ==> !currentWords[k].updated) ==> timer2Running == old(timer2Running))
      ensures currentBlock == old(currentBlock) && currentWords == old(currentWords)
      ensures previousBlock == old(previousBlock) && previousWords == old(previousWords)
      ensures selectedBlock == old(selectedBlock) && activeBlock == old(activeBlock) && delays == old(delays)
    {
      timer1Running := false;
      if currentBlock.Some? {
        var shown, anyUpdated := ShowWords(currentWords);
        items := shown;
        var delay := FadeDelay(cause, currentBlock.value.id, delays);
        if delay > 0 {
          timer1Interval := delay;
          timer1Running := true;
        }
        if anyUpdated {
          timer2Interval := delays.removeHighlight;
          timer2Running := true;
        }
        visible := true;
      } else {
        ResetWidgets();
      }
    }

    /** `OnPartChanged`: back up, forget every block, clear the words, hide. */
    method OnPartChanged()
      modifies this
      ensures previousBlock == old(currentBlock) && previousWords == old(currentWords)
      ensures currentBlock.None? && activeBlock.None? && selectedBlock.None?
      ensures currentWords == [] && !visible && items == []
      ensures delays == old(delays)
      ensures timer1Running == old(timer1Running) && timer2Running == old(timer2Running)
      ensures timer1Interval == old(timer1Interval) && timer2Interval == old(timer2Interval)
    {
      BackupData();
      currentBlock, activeBlock, selectedBlock := None, None, None;
      UpdateData(None);
      ResetWidgets();
    }

    /** `OnSelectionChanged`: a change of selected text block refreshes the strip from the
        selected block; since nothing ever sets one, a change always hides the strip. */
    method OnSelectionChanged(blockIds: seq<string>, lookup: string -> Option<Block>,
                              exported: Option<seq<(string, seq<string>)>>)
      modifies this
      ensures var changed := SelectionChanged(FirstTextBlock(blockIds, lookup), old(currentBlock));
        && (old(selectedBlock).None? && changed ==>
              && !visible && items == [] && currentBlock == old(currentBlock) && currentWords == old(currentWords)
              && previousBlock == old(previousBlock) && previousWords == old(previousWords)
              && timer1Running == old(timer1Running) && timer2Running == old(timer2Running)
              && timer1Interval == old(timer1Interval) && timer2Interval == old(timer2Interval))
        && (!changed ==>
              && visible == old(visible) && items == old(items) && currentBlock == old(currentBlock)
              && currentWords == old(currentWords)
              && previousBlock == old(previousBlock) && previousWords == old(previousWords)
              && timer1Running == old(timer1Running) && timer2Running == old(timer2Running)
              && timer1Interval == old(timer1Interval) && timer2Interval == old(timer2Interval))
      ensures selectedBlock == old(selectedBlock) && activeBlock == old(activeBlock) && delays == old(delays)
    {
      var block: Option<Block> := None;
      var k := 0;
      while k < |blockIds|
        invariant 0 <= k <= |blockIds|
        invariant FirstTextBlock(blockIds, lookup) == FirstTextBlock(blockIds[k..], lookup)
      {
        var candidate := lookup(blockIds[k]);
        if candidate.Some? && candidate.value.blockType == "Text" {
          block := candidate;
          break;
        }
        assert blockIds[k..][1..] == blockIds[k + 1..];
        k := k + 1;
      }
      assert block == FirstTextBlock(blockIds, lookup);
      var changed := SelectionChanged(block, currentBlock);
      if changed {
        if selectedBlock.Some? {
          BackupData();
          currentBlock := selectedBlock;
          UpdateData(exported);
          UpdateWidgets(Selection);
        } else {
          ResetWidgets();
        }
      }
    }
  }
}
