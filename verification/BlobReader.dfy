/** The reader of blobs: one query in flight, and a process that has failed is never read again. */
module BlobReaders {
  import opened Wrappers
  import opened Text
  import opened BlobSpec
  import opened Streams
  import L = LogParser

  datatype Closing = Clean | ProcessFailure | PipeFailure

  /** A running `git cat-file`. What it answers, when its pipe breaks and how it closes are up to the world. */
  class Process {
    const reply: string -> string
    const closing: Closing
    var unread: string
    var faults: Option<nat>
    var open: bool
    /** An operation on it has failed, or what it sent made no sense. */
    ghost var broken: bool

    constructor (reply: string -> string, closing: Closing, faults: Option<nat>)
      ensures this.reply == reply && this.closing == closing && this.faults == faults
      ensures unread == "" && open && !broken
    {
      this.reply, this.closing, this.faults := reply, closing, faults;
      unread, open, broken := "", true, false;
    }

    predicate Sound()
      reads this
    {
      faults.None?
    }

    method Trouble() returns (trouble: bool)
      modifies this`faults
      ensures old(Sound()) ==> !trouble && Sound()
    {
      match faults
      case None => trouble := false;
      case Some(n) =>
        trouble := n == 0;
        faults := Some(if n == 0 then 0 else n - 1);
    }

    method Write(line: string) returns (ok: bool)
      requires open && !broken
      modifies this
      ensures open && broken == !ok && (old(Sound()) ==> ok && Sound())
      ensures ok ==> unread == old(unread) + reply(line)
    {
      var trouble := Trouble();
      if trouble {
        broken := true;
        return false;
      }
      unread := unread + reply(line);
      return true;
    }

    method Peek(n: nat) returns (bytes: Option<string>)
      requires open && !broken
      modifies this
      ensures open && unread == old(unread) && broken == bytes.None? && (old(Sound()) ==> Sound() && (bytes.Some? <==> |unread| >= n))
      ensures bytes.Some? ==> |unread| >= n && bytes.value == unread[..n]
    {
      var trouble := Trouble();
      if trouble || |unread| < n {
        broken := true;
        return None;
      }
      return Some(unread[..n]);
    }

    method ReadFull(n: nat) returns (bytes: Option<string>)
      requires open && !broken
      modifies this
      ensures open && broken == bytes.None? && (old(Sound()) ==> Sound() && (bytes.Some? <==> |old(unread)| >= n))
      ensures bytes.Some? ==> |old(unread)| >= n && bytes.value == old(unread)[..n] && unread == old(unread)[n..]
    {
      var trouble := Trouble();
      if trouble || |unread| < n {
        broken := true;
        return None;
      }
      bytes, unread := Some(unread[..n]), unread[n..];
    }

    /** `ReadSlice('\n')`, through a buffer of 4096 bytes. */
    method ReadLine() returns (line: Option<string>)
      requires open && !broken
      modifies this
      ensures var n := Find(old(unread), '\n');
        && open && broken == line.None? && (old(Sound()) ==> Sound() && (n < |old(unread)| && n < 4096 ==> line.Some?))
        && (line.Some? ==> n < |old(unread)| && line.value == old(unread)[..n + 1] && unread == old(unread)[n + 1..])
    {
      var trouble := Trouble();
      var n := Find(unread, '\n');
      if trouble || n == |unread| || n >= 4096 {
        broken := true;
        return None;
      }
      line, unread := Some(unread[..n + 1]), unread[n + 1..];
    }

    /** `io.ReadAll` of at most `limit` bytes; the end of the stream may come first. */
    method ReadUpTo(limit: nat) returns (bytes: Option<string>)
      requires open && !broken
      modifies this
      ensures var n := if limit < |old(unread)| then limit else |old(unread)|;
        && open && broken == bytes.None? && (old(Sound()) ==> Sound() && bytes.Some?)
        && (bytes.Some? ==> bytes.value == old(unread)[..n] && unread == old(unread)[n..])
    {
      var trouble := Trouble();
      if trouble {
        broken := true;
        return None;
      }
      var n := if limit < |unread| then limit else |unread|;
      bytes, unread := Some(unread[..n]), unread[n..];
    }

    ghost method Condemn()
      modifies this`broken
      ensures broken
    {
      broken := true;
    }

    method Close() returns (how: Closing)
      requires open
      modifies this`open
      ensures !open && how == closing
    {
      open := false;
      return closing;
    }
  }

  /** The process answers each query line with one frame. */
  ghost predicate Conforms(p: Process, answers: string -> Answer) {
    forall q: string :: p.reply(q + "\n") == Frame(q, answers(q)) && GoodAnswer(answers(q))
  }

  /** `strconv.ParseUint(text, 10, 63)`. */
  function ParseUint(text: string): Option<nat> {
    if text == "" || !Digits(text) || Value(text) >= LIMIT then None else Some(Value(text))
  }

  predicate IsEcho(text: string, query: string) {
    text == query + " missing\n" || text == query + " ambiguous\n"
  }

  /** The text begins with the echo of the query and one of two words. */
  predicate Echoes(text: string, query: string, rest: string) {
    text == query + " missing\n" + rest || text == query + " ambiguous\n" + rest
  }

  /** The text begins with a line of four fields: the marker, an identity, a kind and a size. */
  predicate Headed(text: string, kind: string, size: nat) {
    var n := Find(text, '\n');
    n < |text| &&
    var fields := Fields(text[..n + 1]);
    |fields| == 4 && fields[0] == "ok" && L.IsObjectId(fields[1]) && fields[2] == kind && ParseUint(fields[3]) == Some(size)
  }

  /** The header is followed by as many bytes as it says, and a newline. */
  predicate Framed(text: string, kind: string, body: string, rest: string) {
    Headed(text, kind, |body|) && var n := Find(text, '\n'); n < |text| && text[n + 1..] == body + "\n" + rest
  }

  /** Reading the reply to a missing or ambiguous query: its echo, and one of two words. */
  method ReadEcho(p: Process, query: string) returns (ok: bool)
    requires p.open && !p.broken
    modifies p
    ensures p.open && p.broken == !ok
    ensures old(p.Sound()) && IsEcho(old(p.unread), query) ==> ok && p.Sound()
    ensures ok && IsEcho(old(p.unread), query) ==> p.unread == ""
    ensures ok ==> Echoes(old(p.unread), query, p.unread)
  {
    if IsEcho(p.unread, query) {
      EchoFacts(p.unread, query);
    }
    hide IsEcho;
    var echo := p.ReadFull(|query|);
    if echo.None? {
      return false;
    }
    if echo.value != query {
      p.Condemn();
      return false;
    }
    var status := p.ReadLine();
    if status.None? {
      return false;
    }
    if status.value != " missing\n" && status.value != " ambiguous\n" {
      p.Condemn();
      return false;
    }
    assert old(p.unread) == query + status.value + p.unread;
    return true;
  }

  lemma EchoFacts(text: string, query: string)
    requires IsEcho(text, query)
    ensures |text| >= |query| && text[..|query|] == query
    ensures var rest := text[|query|..]; (rest == " missing\n" || rest == " ambiguous\n") && Find(rest, '\n') == |rest| - 1 && |rest| < 4096
    ensures var rest := text[|query|..]; rest[..|rest|] == rest && rest[|rest|..] == ""
  {
    var rest := text[|query|..];
    assert rest == " missing\n" || rest == " ambiguous\n";
    FindUnique(rest, '\n', |rest| - 1);
  }

  lemma FrameParts(oid: string, kind: string, body: string)
    requires L.IsObjectId(oid) && kind in {"blob", "tree", "commit", "tag"}
    ensures var line, frame := HeaderLine(oid, kind, |body|), Frame("", Found(oid, kind, body));
      && Find(frame, '\n') == |line| - 1 && |line| <= |frame| && frame[..|line|] == line && frame[|line|..] == body + "\n"
      && MarkedOk(frame)
    ensures (body + "\n")[..|body|] == body && (body + "\n")[|body|..] == "\n"
  {
    var line, frame := HeaderLine(oid, kind, |body|), Frame("", Found(oid, kind, body));
    HeaderEnd(oid, kind, |body|);
    assert frame == line + (body + "\n");
    assert frame[|line| - 1] == '\n';
    FindUnique(frame, '\n', |line| - 1);
    assert frame[0] == line[0] == 'o' && frame[1] == line[1] == 'k' && frame[2] == line[2] == ' ';
  }

  lemma {:induction false} DecimalShort(n: nat, digits: nat)
    requires n < Power(digits) && digits > 0
    ensures |Decimal(n)| <= digits
  {
    if n >= 10 {
      DecimalShort(n / 10, digits - 1);
    }
  }

  lemma HeaderShort(oid: string, kind: string, size: nat)
    requires L.IsObjectId(oid) && kind in {"blob", "tree", "commit", "tag"} && size < LIMIT
    ensures |HeaderLine(oid, kind, size)| <= 4096
  {
    assert LIMIT <= Power(19) by {
      assert Power(19) == 10 * Power(18) == 100 * Power(17) == 1000 * Power(16);
      assert Power(16) == 10 * Power(15) == 100 * Power(14) == 1000 * Power(13);
      assert Power(13) == 10 * Power(12) == 100 * Power(11) == 1000 * Power(10);
      assert Power(10) == 10 * Power(9) == 100 * Power(8) == 1000 * Power(7);
      assert Power(7) == 10 * Power(6) == 100 * Power(5) == 1000 * Power(4);
      assert Power(4) == 10000;
    }
    DecimalShort(size, 19);
  }

  predicate IsFrame(text: string, a: Answer) {
    a.Found? && GoodAnswer(a) && text == Frame("", a)
  }

  lemma FrameFacts(text: string, a: Answer)
    requires IsFrame(text, a)
    ensures var n := Find(text, '\n'); var header, rest := text[..if n < |text| then n + 1 else n], text[if n < |text| then n + 1 else n..];
      && n < |text| && n < 4096
      && Fields(header) == ["ok", a.oid, a.kind, Decimal(|a.body|)] && L.IsObjectId(a.oid)
      && ParseUint(Decimal(|a.body|)) == Some(|a.body|)
      && rest == a.body + "\n" && rest[..|a.body|] == a.body && rest[|a.body|..] == "\n"
  {
    FrameParts(a.oid, a.kind, a.body);
    HeaderFields(a.oid, a.kind, |a.body|);
    HeaderShort(a.oid, a.kind, |a.body|);
    DecimalValue(|a.body|);
    hide Fields, Decimal, HeaderLine;
  }

  /** Reading a frame that begins with the success marker; `a` is what a conforming process has sent. */
  method ReadObject(p: Process, ghost a: Answer) returns (r: Read)
    requires p.open && !p.broken
    modifies p
    ensures p.open && p.broken == r.Broke?
    ensures IsFrame(old(p.unread), a) && old(p.Sound()) ==> !r.Broke? && p.Sound()
    ensures IsFrame(old(p.unread), a) && !r.Broke? ==> r == Expected(a) && p.unread == ""
    ensures r.Body? ==> Framed(old(p.unread), "blob", r.bytes, p.unread)
    ensures r.Refused? ==> exists kind, body :: kind != "blob" && Framed(old(p.unread), kind, body, p.unread)
  {
    if IsFrame(p.unread, a) {
      FrameFacts(p.unread, a);
    }
    hide IsFrame;
    hide Fields, Decimal, ParseUint, L.IsObjectId;
    var header := p.ReadLine();
    if header.None? {
      return Broke;
    }
    var fields := Fields(header.value);
    if |fields| != 4 || fields[0] != "ok" || !L.IsObjectId(fields[1]) {
      p.Condemn();
      return Broke;
    }
    var size := ParseUint(fields[3]);
    if size.None? {
      p.Condemn();
      return Broke;
    }
    assert Headed(old(p.unread), fields[2], size.value);
    hide Headed;
    var body := ReadBody(p, size.value);
    if body.None? {
      return Broke;
    }
    IsFramed(old(p.unread), fields[2], body.value, p.unread);
    hide Framed;
    if IsFrame(old(p.unread), a) {
      Cancel(a.body, body.value, p.unread);
    }
    if fields[2] != "blob" {
      return Refused;
    }
    return Body(body.value);
  }

  lemma IsFramed(text: string, kind: string, body: string, rest: string)
    requires Headed(text, kind, |body|) && Find(text, '\n') < |text| && text[Find(text, '\n') + 1..] == body + "\n" + rest
    ensures Framed(text, kind, body, rest)
  {
  }

  lemma Cancel(a: string, b: string, rest: string)
    requires |a| == |b| && a + "\n" == b + "\n" + rest
    ensures a == b && rest == ""
  {
    var text := b + "\n" + rest;
    assert (a + "\n")[..|a|] == a && text[..|b|] == b;
    assert |text| == |a| + 1;
  }

  /** The announced bytes, all of them, and the newline that ends the frame. */
  method ReadBody(p: Process, size: nat) returns (body: Option<string>)
    requires p.open && !p.broken
    modifies p
    ensures p.open && p.broken == body.None?
    ensures body.Some? ==> |body.value| == size && old(p.unread) == body.value + "\n" + p.unread
    ensures old(p.Sound()) && |old(p.unread)| > size && old(p.unread)[size] == '\n' ==> body.Some? && p.Sound()
  {
    body := p.ReadUpTo(size);
    if body.None? {
      return;
    }
    if |body.value| != size {
      p.Condemn();
      return None;
    }
    assert |old(p.unread)| > size ==> p.unread[0] == old(p.unread)[size];
    var separator := p.ReadFull(1);
    if separator.None? {
      return None;
    }
    if separator.value != "\n" {
      p.Condemn();
      return None;
    }
    assert old(p.unread) == body.value + separator.value + p.unread;
  }

  datatype Spawn = NoStart | Started(process: Process)
  datatype Reply = Error | Bytes(bytes: string)

  /** What a query comes to: paths with line breaks are first resolved to an object identity. */
  function QueryFor(path: string, expression: string, resolve: string -> Option<string>): Option<string> {
    if !HasBreak(path) then Some(expression)
    else match resolve(expression)
      case None => None
      case Some(id) => if L.IsObjectId(id) then Some(id) else None
  }

  predicate HasBreak(path: string) {
    !NoneOf(path, {'\r', '\n'})
  }

  function Outcome(path: string, expression: string, resolve: string -> Option<string>, answers: string -> Answer): Read {
    match QueryFor(path, expression, resolve)
    case None => Refused
    case Some(query) => Expected(answers(query))
  }

  class BlobReader {
    const resolve: string -> Option<string>
    var stream: Process?
    var upcoming: seq<Spawn>
    var failed: bool
    var closed: bool
    var patience: Option<nat>
    ghost const answers: string -> Answer
    ghost const conforming: bool
    ghost var Processes: set<Process>

    /** A reader before `OpenBlobReader` starts its first process: `Start` then makes it usable. */
    constructor (resolve: string -> Option<string>, upcoming: seq<Spawn>, patience: Option<nat>, ghost answers: string -> Answer,
                 ghost conforming: bool)
      requires forall i | 0 <= i < |upcoming| && upcoming[i].Started? :: var p := upcoming[i].process;
        p.open && !p.broken && p.unread == "" && (conforming ==> Conforms(p, answers))
      requires forall i, j | 0 <= i < j < |upcoming| && upcoming[i].Started? && upcoming[j].Started? ::
        upcoming[i].process != upcoming[j].process
      ensures Aside() && stream == null && this.upcoming == upcoming && Usable()
    {
      this.resolve, this.upcoming, this.patience, this.answers, this.conforming := resolve, upcoming, patience, answers, conforming;
      stream, failed, closed := null, false, false;
      Processes := set i | 0 <= i < |upcoming| && upcoming[i].Started? :: upcoming[i].process;
      new;
      hide Conforms;
    }

    predicate Usable()
      reads this
    {
      !closed && !failed
    }

    /** A usable reader has an open stream on which nothing has gone wrong; if the processes conform, no byte of an
        earlier reply is left on it. */
    ghost predicate Valid()
      reads this, Processes
    {
      && Aside()
      && (Usable() ==> stream != null && stream.open && !stream.broken && (conforming ==> stream.unread == ""))
    }

    /** `ctx.Err()`: the context may be cancelled at any check, and stays so. */
    method Cancelled() returns (cancelled: bool)
      modifies this`patience
      ensures old(patience).None? ==> !cancelled && patience.None?
    {
      match patience
      case None => cancelled := false;
      case Some(n) =>
        cancelled := n == 0;
        patience := Some(if n == 0 then 0 else n - 1);
    }

    /** `readBlob`: one query, and at most one reply. */
    method ReadBlob(revision: string, path: string) returns (r: Read)
      requires Valid() && Usable() && Acceptable(revision, path)
      modifies this`failed, stream
      ensures Valid() && failed == r.Broke? && stream != null && stream.open
      ensures conforming && !r.Broke? ==> r == Outcome(path, revision + ":" + path, resolve, answers)
      ensures conforming && old(stream.Sound()) ==> !r.Broke? && stream.Sound()
    {
      hide Conforms, Frame, Expected;
      var query := QueryFor(path, revision + ":" + path, resolve);
      if query.None? {
        return Refused;
      }
      Queries(revision, path, query.value);
      r := Ask(stream, query.value, conforming, answers);
      failed := r.Broke?;
    }

    /** `start`. */
    method Start() returns (ok: bool)
      requires Aside() && stream == null
      modifies this`stream, this`upcoming
      ensures ok ==> old(upcoming) != [] && old(upcoming)[0].Started? && stream == old(upcoming)[0].process && stream.open && !stream.broken
                     && (conforming ==> stream.unread == "" && Conforms(stream, answers))
      ensures !ok ==> stream == null && (old(upcoming) == [] || old(upcoming)[0].NoStart?)
      ensures upcoming == if old(upcoming) == [] then [] else old(upcoming)[1..]
      ensures Aside()
    {
      hide Conforms;
      if upcoming == [] {
        return false;
      }
      var spawn := upcoming[0];
      assert forall i | 0 <= i < |upcoming[1..]| :: upcoming[1..][i] == upcoming[i + 1];
      upcoming := upcoming[1..];
      if spawn.NoStart? {
        return false;
      }
      stream := spawn.process;
      return true;
    }

    /** All of `Valid` but that a usable reader has a stream. */
    ghost predicate Aside()
      reads this, Processes
    {
      && (stream != null ==> stream in Processes && (conforming ==> Conforms(stream, answers)))
      && (forall i | 0 <= i < |upcoming| && upcoming[i].Started? :: var p := upcoming[i].process;
            p in Processes && p != stream && p.open && !p.broken && p.unread == "" && (conforming ==> Conforms(p, answers)))
      && (forall i, j | 0 <= i < j < |upcoming| && upcoming[i].Started? && upcoming[j].Started? :: upcoming[i].process != upcoming[j].process)
    }

    lemma Queries(revision: string, path: string, query: string)
      requires Acceptable(revision, path) && QueryFor(path, revision + ":" + path, resolve) == Some(query)
      ensures |query| >= 3 && !MarkedOk(query + " missing\n") && !MarkedOk(query + " ambiguous\n")
    {
      if HasBreak(path) {
        IdIsNotOk(query, " missing\n");
        IdIsNotOk(query, " ambiguous\n");
      } else {
        EchoIsNotOk(revision, path, " missing\n");
        EchoIsNotOk(revision, path, " ambiguous\n");
      }
    }

    /** The context is never cancelled, and should the process at hand fail, it closes and Git starts another that does not. */
    ghost predicate Quiet()
      reads this, Processes
      requires Valid() && Usable()
    {
      && conforming && patience.None? && !stream.closing.PipeFailure?
      && upcoming != [] && upcoming[0].Started? && upcoming[0].process.Sound()
    }

    /** `Blob`: a query, and after any failure one more on a new process. */
    method Blob(revision: string, path: string) returns (r: Reply)
      requires Valid()
      modifies this, Processes
      ensures Valid() && closed == old(closed) && Processes == old(Processes)
      ensures |upcoming| <= |old(upcoming)| <= |upcoming| + 1
      ensures !old(Usable()) || !Acceptable(revision, path) ==>
        r.Error? && stream == old(stream) && upcoming == old(upcoming) && forall p | p in Processes :: unchanged(p)
      ensures conforming && r.Bytes? ==> Outcome(path, revision + ":" + path, resolve, answers) == Body(r.bytes)
      ensures old(Usable() && Quiet()) && Acceptable(revision, path) ==>
        Usable() && r == match Outcome(path, revision + ":" + path, resolve, answers) { case Body(bytes) => Bytes(bytes) case _ => Error }
    {
      hide Conforms, Outcome;
      if closed {
        return Error;
      }
      var over := Cancelled();
      if over {
        return Error;
      }
      if failed {
        return Error;
      }
      if !Acceptable(revision, path) {
        return Error;
      }
      var first := ReadBlob(revision, path);
      over := Cancelled();
      if over {
        return Error;
      }
      if first.Body? {
        return Bytes(first.bytes);
      }
      r := Again(revision, path);
    }

    /** The retry: the old process is closed first, whatever was wrong. */
    method Again(revision: string, path: string) returns (r: Reply)
      requires Aside() && !closed && stream != null && stream.open && Acceptable(revision, path)
      modifies this, Processes
      ensures Valid() && closed == old(closed) && Processes == old(Processes)
      ensures |upcoming| <= |old(upcoming)| <= |upcoming| + 1
      ensures conforming && r.Bytes? ==> Outcome(path, revision + ":" + path, resolve, answers) == Body(r.bytes)
      ensures conforming && old(patience.None? && !stream.closing.PipeFailure? && upcoming != [] && upcoming[0].Started? && upcoming[0].process.Sound()) ==>
        Usable() && r == match Outcome(path, revision + ":" + path, resolve, answers) { case Body(bytes) => Bytes(bytes) case _ => Error }
    {
      hide Conforms, Outcome;
      var how := stream.Close();
      stream := null;
      var over := Cancelled();
      if over {
        failed := true;
        return Error;
      }
      if how.PipeFailure? {
        failed := true;
        return Error;
      }
      var started := Start();
      if !started {
        over := Cancelled();
        failed := true;
        return Error;
      }
      failed := false;
      var second := ReadBlob(revision, path);
      over := Cancelled();
      if over {
        return Error;
      }
      if second.Body? {
        return Bytes(second.bytes);
      }
      return Error;
    }

    /** `Close`, which may be called again. */
    method Close()
      requires Valid()
      modifies this`closed, Processes
      ensures Valid() && closed && stream == old(stream) && Processes == old(Processes)
      ensures old(closed) ==> forall p | p in Processes :: unchanged(p)
    {
      hide Conforms;
      if !closed {
        closed := true;
        if stream != null && stream.open {
          var _ := stream.Close();
        }
      }
    }
  }

  /** Write a query and read its reply. */
  method Ask(p: Process, query: string, ghost conforming: bool, ghost answers: string -> Answer) returns (r: Read)
    requires p.open && !p.broken && |query| >= 3 && !MarkedOk(query + " missing\n") && !MarkedOk(query + " ambiguous\n")
    requires conforming ==> p.unread == "" && Conforms(p, answers)
    modifies p
    ensures p.open && p.broken == r.Broke?
    ensures conforming && !r.Broke? ==> r == Expected(answers(query)) && p.unread == ""
    ensures conforming && old(p.Sound()) ==> !r.Broke? && p.Sound()
    ensures r.Body? ==> Framed(old(p.unread) + p.reply(query + "\n"), "blob", r.bytes, p.unread)
    ensures r.Refused? ==> var text := old(p.unread) + p.reply(query + "\n");
      Echoes(text, query, p.unread) || exists kind, body :: kind != "blob" && Framed(text, kind, body, p.unread)
  {
    ghost var a := answers(query);
    if conforming {
      Replies(p, query, answers);
    }
    var written := p.Write(query + "\n");
    if !written {
      return Broke;
    }
    if conforming {
      FrameStart(query, a);
      assert a.Found? ==> IsFrame(p.unread, a);
    }
    hide IsFrame, IsEcho, Frame;
    var prefix := p.Peek(3);
    if prefix.None? {
      return Broke;
    }
    if prefix.value != "ok " {
      var ok := ReadEcho(p, query);
      return if ok then Refused else Broke;
    }
    r := ReadObject(p, a);
  }

  /** A frame is marked exactly when it carries an object. */
  lemma FrameStart(query: string, a: Answer)
    requires |query| >= 3 && !MarkedOk(query + " missing\n") && !MarkedOk(query + " ambiguous\n") && GoodAnswer(a)
    ensures |Frame(query, a)| >= 3 && (Frame(query, a)[..3] == "ok " <==> a.Found?)
    ensures a.Found? ==> Frame(query, a) == Frame("", a)
    ensures !a.Found? ==> IsEcho(Frame(query, a), query)
  {
    var f := Frame(query, a);
    if a.Found? {
      FrameParts(a.oid, a.kind, a.body);
    }
    assert f[..3] == "ok " <==> f[0] == 'o' && f[1] == 'k' && f[2] == ' ';
  }

  lemma Replies(p: Process, query: string, answers: string -> Answer)
    requires Conforms(p, answers)
    ensures p.reply(query + "\n") == Frame(query, answers(query)) && GoodAnswer(answers(query))
  {
  }
}
