/** The first-parent ancestry test: one line of parents per commit, read through a buffer that may be too small for a
    line. */
module Ancestry {
  import opened Wrappers
  import opened Streams
  import G = CommitGraph
  import L = LogParser
  import T = Text

  /** What `ReadSlice` returns besides bytes: a whole line, a full buffer, or the end. */
  datatype Slice = Slice(part: string, end: End)
  datatype End = LineEnd | BufferFull | StreamEnd

  /** `ReadSlice('\n')` with a buffer of `size` bytes. */
  function ReadSlice(data: string, size: nat): (s: Slice)
    requires size > 0
    ensures |s.part| <= |data| && data[..|s.part|] == s.part
    ensures !s.end.StreamEnd? ==> s.part != ""
  {
    var n := Find(data, '\n');
    if n < size && n < |data| then Slice(data[..n + 1], LineEnd)
    else if |data| >= size then Slice(data[..size], BufferFull)
    else Slice(data, StreamEnd)
  }

  /** `bytes.IndexAny(part, " \n")`, or the length. */
  function FieldEnd(part: string): (n: nat)
    ensures n <= |part| && (n < |part| ==> part[n] == ' ' || part[n] == '\n')
    ensures forall k | 0 <= k < n :: part[k] != ' ' && part[k] != '\n'
  {
    if part == "" || part[0] == ' ' || part[0] == '\n' then 0 else FieldEnd(part[1..]) + 1
  }

  /** The reading loop of `IsFirstParentAncestor`; no value means a malformed stream. */
  method LastParent(data: string, size: nat) returns (last: Option<string>)
    requires size > 0
    ensures last == Scan(data, size, "", true)
  {
    var rest, lastParent, atLineStart := data, "", true;
    while true
      invariant Scan(data, size, "", true) == Scan(rest, size, lastParent, atLineStart)
      decreases |rest|
    {
      var s := ReadSlice(rest, size);
      if atLineStart && s.part != "" {
        var end := FieldEnd(s.part);
        if end == |s.part| {
          return None;
        }
        lastParent := s.part[..end];
        if lastParent != "" && !L.IsObjectId(lastParent) {
          return None;
        }
        atLineStart := false;
      }
      match s.end {
        case LineEnd =>
          atLineStart := true;
        case BufferFull =>
        case StreamEnd =>
          if s.part == "" && atLineStart {
            return Some(lastParent);
          }
          return None;
      }
      rest := rest[|s.part|..];
    }
  }

  /** The loop as a function of what is left to read. */
  function Scan(rest: string, size: nat, lastParent: string, atLineStart: bool): Option<string>
    requires size > 0
    decreases |rest|
  {
    var s := ReadSlice(rest, size);
    var starts := atLineStart && s.part != "";
    var end := FieldEnd(s.part);
    if starts && (end == |s.part| || (end > 0 && !L.IsObjectId(s.part[..end]))) then None else
    var parent := if starts then s.part[..end] else lastParent;
    match s.end
    case LineEnd => Scan(rest[|s.part|..], size, parent, true)
    case BufferFull => Scan(rest[|s.part|..], size, parent, atLineStart && !starts)
    case StreamEnd => if s.part == "" && atLineStart then Some(parent) else None
  }

  // ---- any stream --------------------------------------------------------------------------------

  /** What the first field of a line may be: nothing, or an object identity. */
  predicate FirstOk(field: string) {
    field == "" || L.IsObjectId(field)
  }

  /** Lines that all end, and begin well. */
  predicate WellFormed(data: string)
    decreases |data|
  {
    data == "" ||
    var n := Find(data, '\n');
    n < |data| && FirstOk(data[..FieldEnd(data)]) && WellFormed(data[n + 1..])
  }

  /** The first field of the last line. */
  function LastFirst(data: string, otherwise: string): string
    decreases |data|
  {
    if data == "" then otherwise else
    var n := Find(data, '\n');
    if n == |data| then otherwise else LastFirst(data[n + 1..], data[..FieldEnd(data)])
  }

  /** A first field that is in order ends inside the buffer; whatever part is at hand, it is the same field. */
  lemma FieldInside(data: string, size: nat)
    requires size > 64 && data != ""
    ensures var s := ReadSlice(data, size); var end := FieldEnd(s.part); var n := Find(data, '\n');
      && s.part != ""
      && (n < |data| && FirstOk(data[..FieldEnd(data)]) ==>
            end < |s.part| && s.part[..end] == data[..FieldEnd(data)])
      && (end < |s.part| ==> end == FieldEnd(data) && s.part[..end] == data[..FieldEnd(data)])
  {
    var s, n, end := ReadSlice(data, size), Find(data, '\n'), FieldEnd(ReadSlice(data, size).part);
    assert forall k | 0 <= k < |s.part| :: s.part[k] == data[k];
    var m := FieldEnd(data);
    if end < |s.part| {
      FieldEndUnique(data, end);
    }
    if n < |data| && FirstOk(data[..m]) {
      assert m <= n;
      assert |data[..m]| == m <= 64;
      FieldEndUnique(s.part, m);
    }
  }

  /** Past the first field, a line that does not end spoils the stream. */
  lemma {:induction false} Endless(rest: string, size: nat, parent: string)
    requires size > 0 && Find(rest, '\n') == |rest|
    ensures Scan(rest, size, parent, false) == None
    decreases |rest|
  {
    var s := ReadSlice(rest, size);
    if s.end.BufferFull? {
      NoNewline(rest, size);
      Endless(rest[size..], size, parent);
    }
  }

  lemma NoNewline(rest: string, n: nat)
    requires Find(rest, '\n') == |rest| && n <= |rest|
    ensures Find(rest[n..], '\n') == |rest[n..]|
  {
    assert forall k | 0 <= k < |rest[n..]| :: rest[n..][k] == rest[n + k];
    FindUnique(rest[n..], '\n', |rest[n..]|);
  }

  /** The first piece of a line that begins well. */
  lemma FirstPiece(data: string, size: nat, parent: string)
    requires size > 64 && Find(data, '\n') < |data| && FirstOk(data[..FieldEnd(data)])
    ensures var s := ReadSlice(data, size); var field := data[..FieldEnd(data)];
      && !s.end.StreamEnd?
      && Scan(data, size, parent, true) == Scan(data[|s.part|..], size, field, s.end.LineEnd?)
  {
    FieldInside(data, size);
    FirstIsOk(data[..FieldEnd(data)]);
    hide Find, FieldEnd, L.IsObjectId, FirstOk;
  }

  /** A line that ends and begins well sets the parent. */
  lemma TakesLine(data: string, size: nat, parent: string)
    requires size > 64 && Find(data, '\n') < |data| && FirstOk(data[..FieldEnd(data)])
    ensures Scan(data, size, parent, true) == Scan(data[Find(data, '\n') + 1..], size, data[..FieldEnd(data)], true)
  {
    hide Scan, ReadSlice, FieldEnd, FirstOk, Find;
    var n, field := Find(data, '\n'), data[..FieldEnd(data)];
    FirstPiece(data, size, parent);
    PieceLength(data, size);
    if n >= size {
      RestOfLine(data, size, n);
      SkipsRest(data[size..], n - size, size, field);
    }
  }

  lemma RestOfLine(data: string, k: nat, n: nat)
    requires k <= n < |data| && data[n] == '\n' && forall i | 0 <= i < n :: data[i] != '\n'
    ensures var rest := data[k..]; rest[n - k] == '\n' && (forall i | 0 <= i < n - k :: rest[i] != '\n') && rest[n - k + 1..] == data[n + 1..]
  {
  }

  lemma SkipsRest(rest: string, n: nat, size: nat, parent: string)
    requires size > 0 && n < |rest| && rest[n] == '\n' && forall i | 0 <= i < n :: rest[i] != '\n'
    ensures Scan(rest, size, parent, false) == Scan(rest[n + 1..], size, parent, true)
  {
    hide Scan;
    assert rest == rest[..n] + "\n" + rest[n + 1..];
    SkipsLine(rest[..n], rest[n + 1..], size, parent);
  }

  lemma PieceLength(data: string, size: nat)
    requires size > 0 && Find(data, '\n') < |data|
    ensures var s := ReadSlice(data, size); var n := Find(data, '\n');
      if n < size then |s.part| == n + 1 && s.end.LineEnd? else |s.part| == size && s.end.BufferFull?
  {
    hide Find;
  }

  lemma FirstIsOk(field: string)
    ensures FirstOk(field) <==> field == "" || L.IsObjectId(field)
  {
  }

  /** A line that does not end, or begins badly, spoils the stream. */
  lemma SpoilsLine(data: string, size: nat, parent: string)
    requires size > 64 && data != "" && (Find(data, '\n') == |data| || !FirstOk(data[..FieldEnd(data)]))
    ensures Scan(data, size, parent, true) == None
  {
    var s := ReadSlice(data, size);
    FieldInside(data, size);
    if Find(data, '\n') == |data| && s.end.BufferFull? {
      NoNewline(data, size);
      Endless(data[size..], size, s.part[..FieldEnd(s.part)]);
    }
  }

  lemma NoLines(size: nat, parent: string)
    requires size > 64
    ensures Scan("", size, parent, true) == Some(parent) && WellFormed("") && LastFirst("", parent) == parent
  {
  }

  lemma LinesOf(data: string, parent: string)
    requires data != ""
    ensures var n := Find(data, '\n');
      WellFormed(data) <==> n < |data| && FirstOk(data[..FieldEnd(data)]) && WellFormed(data[n + 1..])
    ensures var n := Find(data, '\n'); n < |data| ==> LastFirst(data, parent) == LastFirst(data[n + 1..], data[..FieldEnd(data)])
  {
  }

  /** The reading loop takes any stream apart into lines, whatever the size of the buffer, and fails exactly if one does not end
      or begins badly. */
  lemma {:induction false} ScanMeans(data: string, size: nat, parent: string)
    requires size > 64
    ensures Scan(data, size, parent, true) == if WellFormed(data) then Some(LastFirst(data, parent)) else None
    decreases |data|
  {
    hide Scan, FirstOk, WellFormed, LastFirst, Find, FieldEnd, ReadSlice;
    if data == "" {
      NoLines(size, parent);
    } else {
      LinesOf(data, parent);
      var n := Find(data, '\n');
      if n < |data| && FirstOk(data[..FieldEnd(data)]) {
        TakesLine(data, size, parent);
        ScanMeans(data[n + 1..], size, data[..FieldEnd(data)]);
      } else {
        SpoilsLine(data, size, parent);
      }
    }
  }

  // ---- lines -------------------------------------------------------------------------------------

  /** A line of Git's `%P`: the first parent, then others, each after a space; empty for a root. */
  datatype Line = Line(first: string, others: string)

  function Text(l: Line): string {
    l.first + l.others + "\n"
  }

  predicate GoodLine(l: Line, size: nat) {
    && (l.first == "" || L.IsObjectId(l.first)) && |l.first| < size
    && (l.others == "" || (l.first != "" && l.others[0] == ' '))
    && forall i | 0 <= i < |l.others| :: l.others[i] != '\n'
  }

  function Output(lines: seq<Line>): string {
    if lines == [] then "" else Text(lines[0]) + Output(lines[1..])
  }

  /** The rest of a line, in as many pieces as the buffer needs, leaves the parent alone. */
  lemma {:induction false} SkipsLine(tail: string, more: string, size: nat, parent: string)
    requires size > 0 && forall i | 0 <= i < |tail| :: tail[i] != '\n'
    ensures Scan(tail + "\n" + more, size, parent, false) == Scan(more, size, parent, true)
    decreases |tail|
  {
    var data := tail + "\n" + more;
    FindUnique(data, '\n', |tail|);
    var s := ReadSlice(data, size);
    if |tail| < size {
      assert data[|s.part|..] == more;
    } else {
      assert data[size..] == tail[size..] + "\n" + more;
      SkipsLine(tail[size..], more, size, parent);
    }
  }

  lemma NoSpaceInId(id: string)
    requires L.IsObjectId(id)
    ensures forall i | 0 <= i < |id| :: id[i] != ' ' && id[i] != '\n'
  {
    forall i | 0 <= i < |id| ensures id[i] != ' ' && id[i] != '\n' {
      assert L.IsHex(id[i]);
    }
  }

  lemma FieldEndUnique(part: string, n: nat)
    requires n < |part| && (part[n] == ' ' || part[n] == '\n') && forall k | 0 <= k < n :: part[k] != ' ' && part[k] != '\n'
    ensures FieldEnd(part) == n
  {
    var m := FieldEnd(part);
    assert m < |part| ==> part[m] == ' ' || part[m] == '\n';
  }

  /** A line sets the parent to its first, however long the line is. */
  lemma ReadsLine(l: Line, more: string, size: nat, parent: string)
    requires size > 0 && GoodLine(l, size)
    ensures Scan(Text(l) + more, size, parent, true) == Scan(more, size, l.first, true)
  {
    var data := Text(l) + more;
    if l.first != "" {
      NoSpaceInId(l.first);
    }
    var n := |l.first| + |l.others|;
    assert data == l.first + l.others + ("\n" + more);
    assert forall k | 0 <= k < n :: data[k] != '\n' by {
      forall k | 0 <= k < n ensures data[k] != '\n' {
        assert data[k] == if k < |l.first| then l.first[k] else l.others[k - |l.first|];
      }
    }
    FindUnique(data, '\n', n);
    var s := ReadSlice(data, size);
    assert data[|l.first|] == if l.others == "" then '\n' else ' ';
    assert forall k | 0 <= k < |l.first| :: data[k] == l.first[k];
    assert |s.part| > |l.first| && forall k | 0 <= k < |s.part| :: s.part[k] == data[k];
    FieldEndUnique(s.part, |l.first|);
    assert s.part[..|l.first|] == l.first;
    if n < size {
      assert data[|s.part|..] == more;
    } else {
      var tail := (l.first + l.others)[size..];
      assert data[size..] == tail + "\n" + more;
      forall i | 0 <= i < |tail| ensures tail[i] != '\n' {
        assert tail[i] == data[size + i];
      }
      SkipsLine(tail, more, size, l.first);
    }
  }

  /** After any number of lines the parent is the first of the last line. */
  lemma {:induction false} ReadsLines(lines: seq<Line>, size: nat, parent: string)
    requires size > 0 && forall i | 0 <= i < |lines| :: GoodLine(lines[i], size)
    ensures Scan(Output(lines), size, parent, true) == Some(if lines == [] then parent else lines[|lines| - 1].first)
  {
    if lines != [] {
      ReadsLine(lines[0], Output(lines[1..]), size, parent);
      ReadsLines(lines[1..], size, lines[0].first);
    }
  }

  // ---- ancestry ----------------------------------------------------------------------------------

  /** A commit of one of the two chains. */
  predicate OnChains(x: G.Commit, a: G.Commit, d: G.Commit) {
    G.Anc(x, a) || G.Anc(x, d)
  }

  /** The commits of the two chains have distinct object identities. */
  ghost predicate Naming(name: G.Commit -> string, a: G.Commit, d: G.Commit) {
    && (forall x | OnChains(x, a, d) :: L.IsObjectId(name(x)))
    && (forall x, y | OnChains(x, a, d) && OnChains(y, a, d) :: name(x) == name(y) ==> x == y)
  }

  /** The last `width` decimal digits. */
  function Padded(n: nat, width: nat): (s: string)
    ensures |s| == width && T.Digits(s)
  {
    if width == 0 then "" else Padded(n / 10, width - 1) + ['0' + (n % 10) as char]
  }

  lemma {:induction false} PaddedValue(n: nat, width: nat)
    requires n < T.Power(width)
    ensures T.Value(Padded(n, width)) == n
  {
    if width > 0 {
      PaddedValue(n / 10, width - 1);
      var s := Padded(n, width);
      assert s[..|s| - 1] == Padded(n / 10, width - 1);
    }
  }

  /** A number for each commit of the two chains. */
  function Numbering(x: G.Commit, a: G.Commit): nat {
    if G.Anc(x, a) then G.Depth(x) else G.Depth(a) + 1 + G.Depth(x)
  }

  /** Identities of forty digits suffice for any two chains of fewer commits than there are of those. */
  lemma NamesExist(a: G.Commit, d: G.Commit) returns (name: G.Commit -> string)
    requires G.Depth(a) + G.Depth(d) + 2 <= T.Power(40)
    ensures Naming(name, a, d)
  {
    name := x => Padded(Numbering(x, a), 40);
    hide T.Power, Padded;
    forall x | OnChains(x, a, d) ensures L.IsObjectId(name(x)) && T.Value(name(x)) == Numbering(x, a) {
      PaddedName(x, a, d);
    }
    hide L.IsObjectId, T.Value, Numbering;
    forall x, y | OnChains(x, a, d) && OnChains(y, a, d) && name(x) == name(y) ensures x == y {
      SameNumber(x, y, a, d);
    }
  }

  lemma PaddedName(x: G.Commit, a: G.Commit, d: G.Commit)
    requires G.Depth(a) + G.Depth(d) + 2 <= T.Power(40) && OnChains(x, a, d)
    ensures var s := Padded(Numbering(x, a), 40); L.IsObjectId(s) && T.Value(s) == Numbering(x, a)
  {
    hide T.Power, Padded;
    if G.Anc(x, a) {
      G.AncDepth(x, a);
    } else {
      G.AncDepth(x, d);
    }
    PaddedValue(Numbering(x, a), 40);
  }

  lemma SameNumber(x: G.Commit, y: G.Commit, a: G.Commit, d: G.Commit)
    requires OnChains(x, a, d) && OnChains(y, a, d) && Numbering(x, a) == Numbering(y, a)
    ensures x == y
  {
    if G.Anc(x, a) {
      G.AncDepth(x, a);
    }
    if G.Anc(y, a) {
      G.AncDepth(y, a);
    }
    var top := if G.Anc(x, a) then a else d;
    G.AncLinear(x, y, top);
    if G.Anc(x, y) {
      G.AncDepth(x, y);
    } else {
      G.AncDepth(y, x);
    }
  }

  /** `git log --first-parent --format=%P ancestor..descendant`; `others` are the further parents of merges. */
  function Log(a: G.Commit, d: G.Commit, name: G.Commit -> string, others: G.Commit -> string): seq<Line> {
    if G.Anc(d, a) then []
    else if d.Root? then [Line("", "")]
    else [Line(name(d.parent), others(d))] + Log(a, d.parent, name, others)
  }

  lemma {:induction false} LogLines(a: G.Commit, d: G.Commit, name: G.Commit -> string, others: G.Commit -> string, size: nat)
    requires Naming(name, a, d) && size > 64
    requires forall c :: (others(c) == "" || others(c)[0] == ' ') && forall i | 0 <= i < |others(c)| :: others(c)[i] != '\n'
    ensures forall i | 0 <= i < |Log(a, d, name, others)| :: GoodLine(Log(a, d, name, others)[i], size)
  {
    if !G.Anc(d, a) && d.Child? {
      LogLines(a, d.parent, name, others, size);
    }
  }

  /** The last line names the merge base. */
  lemma {:induction false} LastNamesMergeBase(a: G.Commit, d: G.Commit, name: G.Commit -> string, others: G.Commit -> string)
    requires !G.Anc(d, a)
    ensures var lines := Log(a, d, name, others);
      lines != [] && lines[|lines| - 1].first == match G.MergeBase(d, a) case None => "" case Some(m) => name(m)
  {
    if d.Child? && !G.Anc(d.parent, a) {
      LastNamesMergeBase(a, d.parent, name, others);
    }
  }

  /** `IsFirstParentAncestor` for a known ancestor, given what Git prints. */
  method IsFirstParentAncestor(a: G.Commit, d: G.Commit, name: G.Commit -> string, others: G.Commit -> string, size: nat)
    returns (matched: Option<bool>)
    requires Naming(name, a, d) && size > 64
    requires forall c :: (others(c) == "" || others(c)[0] == ' ') && forall i | 0 <= i < |others(c)| :: others(c)[i] != '\n'
    ensures matched == Some(G.Anc(a, d))
  {
    if a == d {
      return Some(true);
    }
    var last := LastParent(Output(Log(a, d, name, others)), size);
    LogLines(a, d, name, others, size);
    ReadsLines(Log(a, d, name, others), size, "");
    MeetsAncestor(a, d, name, others);
    if last.None? {
      return None;
    }
    return Some(last.value == name(a));
  }

  lemma MeetsAncestor(a: G.Commit, d: G.Commit, name: G.Commit -> string, others: G.Commit -> string)
    requires Naming(name, a, d) && a != d
    ensures var lines := Log(a, d, name, others);
      (if lines == [] then "" else lines[|lines| - 1].first) == name(a) <==> G.Anc(a, d)
  {
    assert L.IsObjectId(name(a));
    G.MergeBaseLowest(d, a);
    if G.Anc(d, a) {
      if G.Anc(a, d) {
        G.AncAntisym(a, d);
      }
    } else {
      LastNamesMergeBase(a, d, name, others);
      if G.Anc(a, d) {
        G.AncAntisym(a, G.MergeBase(d, a).value);
      }
    }
  }
}
