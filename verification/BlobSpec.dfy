/** The batch protocol of `git cat-file`: one reply frame for each query line. */
module BlobSpec {
  import opened Text
  import L = LogParser

  datatype Answer = Found(oid: string, kind: string, body: string) | Missing | Ambiguous

  const LIMIT: nat := 0x8000_0000_0000_0000

  function SizeEnd(size: nat): string {
    Decimal(size) + "\n" + ""
  }

  function KindEnd(kind: string, size: nat): string {
    kind + " " + SizeEnd(size)
  }

  function IdEnd(oid: string, kind: string, size: nat): string {
    oid + " " + KindEnd(kind, size)
  }

  /** The marker, the identity, the type and the size. */
  function HeaderLine(oid: string, kind: string, size: nat): string {
    "ok" + " " + IdEnd(oid, kind, size)
  }

  function Frame(query: string, a: Answer): string {
    match a
    case Found(oid, kind, body) => HeaderLine(oid, kind, |body|) + (body + "\n")
    case Missing => query + " missing\n"
    case Ambiguous => query + " ambiguous\n"
  }

  predicate GoodAnswer(a: Answer) {
    a.Found? ==> L.IsObjectId(a.oid) && a.kind in {"blob", "tree", "commit", "tag"} && |a.body| < LIMIT
  }

  /** What the reader makes of an answer. */
  datatype Read = Body(bytes: string) | Refused | Broke

  function Expected(a: Answer): Read {
    if a.Found? && a.kind == "blob" then Body(a.body) else Refused
  }

  predicate NoneOf(text: string, bad: set<char>) {
    forall i | 0 <= i < |text| :: text[i] !in bad
  }

  /** The check at the head of `Blob`. */
  predicate Acceptable(revision: string, path: string) {
    revision != "" && revision[0] != '-' && NoneOf(revision, {':', '\0', ' ', '\t', '\r', '\n'}) && path != "" && NoneOf(path, {'\0'})
  }

  predicate MarkedOk(text: string) {
    |text| >= 3 && text[0] == 'o' && text[1] == 'k' && text[2] == ' '
  }

  /** An echoed query is never taken for the success marker. */
  lemma EchoIsNotOk(revision: string, path: string, tail: string)
    requires Acceptable(revision, path)
    ensures |revision + ":" + path| >= 3 && !MarkedOk(revision + ":" + path + tail)
  {
    var query := revision + ":" + path + tail;
    if |revision| < 3 {
      assert query[|revision|] == ':';
    } else {
      assert query[2] == revision[2];
    }
  }

  lemma IdIsNotOk(query: string, tail: string)
    requires L.IsObjectId(query)
    ensures |query| >= 3 && !MarkedOk(query + tail)
  {
    assert L.IsHex(query[0]) && (query + tail)[0] == query[0];
  }

  lemma {:induction false} DigitsAreNoSpace(s: string)
    requires Digits(s)
    ensures forall k | 0 <= k < |s| :: !IsSpace(s[k])
  {
    forall k | 0 <= k < |s| ensures !IsSpace(s[k]) {
      assert IsDigit(s[k]);
    }
  }

  lemma SizeFields(size: nat)
    ensures Fields(SizeEnd(size)) == [Decimal(size)]
  {
    DigitsAreNoSpace(Decimal(size));
    hide Fields;
    FieldFirst(Decimal(size), '\n', "");
    NoFields();
  }

  lemma IdHasNoSpace(oid: string)
    requires L.IsObjectId(oid)
    ensures oid != "" && forall k | 0 <= k < |oid| :: !IsSpace(oid[k])
  {
    forall k | 0 <= k < |oid| ensures !IsSpace(oid[k]) {
      assert L.IsHex(oid[k]);
    }
  }

  /** The header of a frame has four fields, and the last is the size. */
  lemma HeaderFields(oid: string, kind: string, size: nat)
    requires L.IsObjectId(oid) && kind in {"blob", "tree", "commit", "tag"}
    ensures Fields(HeaderLine(oid, kind, size)) == ["ok", oid, kind, Decimal(size)]
  {
    hide Fields, Decimal, L.IsObjectId, SizeEnd, KindEnd, IdEnd;
    SizeFields(size);
    KindFields(kind, size);
    IdFields(oid, kind, size);
    FieldFirst("ok", ' ', IdEnd(oid, kind, size));
  }

  lemma KindFields(kind: string, size: nat)
    requires kind in {"blob", "tree", "commit", "tag"}
    ensures Fields(KindEnd(kind, size)) == [kind] + Fields(SizeEnd(size))
  {
    hide Fields, SizeEnd;
    FieldFirst(kind, ' ', SizeEnd(size));
  }

  lemma IdFields(oid: string, kind: string, size: nat)
    requires L.IsObjectId(oid)
    ensures Fields(IdEnd(oid, kind, size)) == [oid] + Fields(KindEnd(kind, size))
  {
    IdHasNoSpace(oid);
    hide Fields, KindEnd;
    FieldFirst(oid, ' ', KindEnd(kind, size));
  }

  lemma NoFields()
    ensures Fields("") == []
  {
  }

  /** Only the end of the header line is a newline. */
  lemma HeaderEnd(oid: string, kind: string, size: nat)
    requires L.IsObjectId(oid) && kind in {"blob", "tree", "commit", "tag"}
    ensures var line := HeaderLine(oid, kind, size);
      forall k | 0 <= k < |line| - 1 :: line[k] != '\n'
  {
    var line, number := HeaderLine(oid, kind, size), Decimal(size);
    assert line == ("ok " + oid) + ((" " + kind + " ") + (number + "\n"));
    hide Decimal;
    forall k | 0 <= k < |line| - 1 ensures line[k] != '\n' {
      if 3 <= k < 3 + |oid| {
        assert L.IsHex(oid[k - 3]) && line[k] == oid[k - 3];
      } else if k >= |line| - 1 - |number| {
        assert IsDigit(number[k - (|line| - 1 - |number|)]) && line[k] == number[k - (|line| - 1 - |number|)];
      }
    }
  }
}
