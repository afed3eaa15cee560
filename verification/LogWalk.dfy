/** The stream parser as it runs: tokens are read one at a time, whatever chunks the pipe delivers. */
module LogWalk {
  import opened Streams
  import opened LogParser

  lemma TokensStep(data: string)
    ensures var n := Find(data, NUL);
      && (n == |data| ==> Tokens(data) == (if data == "" then [] else [data]))
      && (0 < n < |data| ==> Tokens(data) == [data[..n]] + Tokens(data[n + 1..]))
      && (n == 0 && data != "" ==> Tokens(data) == Tokens(data[1..]))
      && (n < |data| - 1 ==> Open(data) == Open(data[n + 1..]))
      && (n == |data| - 1 ==> !Open(data))
  {
  }

  /** `next`: the next non-empty token, and whether the stream ended with it. */
  method Next(reader: ByteReader) returns (token: string, eof: bool)
    modifies reader
    ensures var tokens, open := Tokens(old(reader.Rest())), Open(old(reader.Rest()));
      if tokens == [] then token == "" && eof && Tokens(reader.Rest()) == []
      else && token == tokens[0] && token != "" && Tokens(reader.Rest()) == tokens[1..] && eof == (|tokens| == 1 && open)
           && (|tokens| > 1 ==> Open(reader.Rest()) == open)
  {
    ghost var all := reader.Rest();
    while true
      invariant Tokens(reader.Rest()) == Tokens(all) && (Tokens(all) != [] ==> Open(reader.Rest()) == Open(all))
      decreases |reader.Rest()|
    {
      ghost var data := reader.Rest();
      TokensStep(data);
      var text, end := reader.ReadString(NUL);
      token := if text != "" && text[|text| - 1] == NUL then text[..|text| - 1] else text;
      if token != "" {
        ghost var n := Find(data, NUL);
        if n < |data| {
          assert token == data[..n];
          Continues(data, n);
        } else {
          assert data[|data| - 1] != NUL;
        }
        return token, end;
      }
      if end {
        return "", true;
      }
    }
  }

  lemma Continues(data: string, n: nat)
    requires n == Find(data, NUL) && 0 < n < |data|
    ensures Tokens(data)[0] == data[..n] && Tokens(data)[1..] == Tokens(data[n + 1..])
    ensures |Tokens(data)| > 1 ==> Open(data[n + 1..]) == Open(data)
    ensures |Tokens(data)| == 1 ==> !Open(data)
  {
    TokensStep(data);
    if n < |data| - 1 {
      SomeTokenIfOpen(data[n + 1..]);
    }
  }

  lemma {:induction false} SomeTokenIfOpen(data: string)
    ensures Open(data) ==> Tokens(data) != []
    decreases |data|
  {
    TokensStep(data);
    var n := Find(data, NUL);
    if n == 0 && data != "" {
      SomeTokenIfOpen(data[1..]);
    }
  }

  /** `readHeader`. */
  method Header(reader: ByteReader, hash: string, valid: string -> bool) returns (ok: bool, commit: Commit)
    modifies reader
    ensures var tokens, open := Tokens(old(reader.Rest())), Open(old(reader.Rest()));
      match ReadHeader(hash, tokens, open, valid)
      case NoHeader => !ok
      case Header(c, rest) => ok && commit == c && Tokens(reader.Rest()) == rest && (rest != [] ==> Open(reader.Rest()) == open)
  {
    commit := Commit(hash, "", "", []);
    var time, timeEnds := Next(reader);
    if timeEnds {
      return false, commit;
    }
    if !valid(time) {
      return false, commit;
    }
    var subject, _ := Next(reader);
    return true, Commit(hash, time, subject, []);
  }

  lemma Onward(yielded: seq<Commit>, commit: Commit, p: Parsed)
    ensures Prepend(yielded, Prepend([commit], p)) == Prepend(yielded + [commit], p)
  {
    assert yielded + ([commit] + p.commits) == yielded + [commit] + p.commits;
  }

  /** `walkCommitArgs`, once Git is running: what is yielded, and whether it ends well, depends on the bytes alone. */
  method Walk(reader: ByteReader, valid: string -> bool) returns (yielded: seq<Commit>, ok: bool)
    modifies reader
    ensures Parsed(yielded, ok) == ParseTokens(Tokens(old(reader.Rest())), Open(old(reader.Rest())), valid)
  {
    ghost var all := ParseTokens(Tokens(reader.Rest()), Open(reader.Rest()), valid);
    yielded := [];
    var first, ends := Next(reader);
    if ends && first == "" {
      return [], true;
    }
    var hash := TrimNewline(first);
    if !IsObjectId(hash) {
      return [], false;
    }
    var read, commit := Header(reader, hash, valid);
    if !read {
      return [], false;
    }
    assert [] + all.commits == all.commits;
    while true
      invariant all == Prepend(yielded, ParseBody(commit, Tokens(reader.Rest()), Open(reader.Rest()), valid))
      decreases |Tokens(reader.Rest())|
    {
      ghost var tokens, open := Tokens(reader.Rest()), Open(reader.Rest());
      var token, tokenEnds := Next(reader);
      if tokenEnds && token == "" {
        return yielded + [commit], true;
      }
      token := TrimNewline(token);
      if IsObjectId(token) {
        read, commit, yielded := NextCommit(reader, token, commit, yielded, tokens, open, valid);
        if !read {
          assert yielded + [] == yielded;
          return yielded, false;
        }
        continue;
      }
      if token == "" {
        assert yielded + [] == yielded;
        return yielded, false;
      }
      var path, _ := Next(reader);
      if path == "" {
        assert yielded + [] == yielded;
        return yielded, false;
      }
      if TwoPaths(token) {
        var newPath, _ := Next(reader);
        if newPath == "" {
          assert yielded + [] == yielded;
          return yielded, false;
        }
        commit := AddChange(commit, Change(token[..1], path, newPath));
      } else {
        commit := AddChange(commit, Change(token[..1], "", path));
      }
    }
  }

  /** The commit in hand is yielded, and the next header read. */
  method NextCommit(reader: ByteReader, hash: string, commit: Commit, before: seq<Commit>, ghost tokens: seq<string>, ghost open: bool,
                    valid: string -> bool) returns (read: bool, next: Commit, yielded: seq<Commit>)
    requires tokens != [] && hash == TrimNewline(tokens[0]) && IsObjectId(hash) && Tokens(reader.Rest()) == tokens[1..]
    requires |tokens| > 1 ==> Open(reader.Rest()) == open
    modifies reader
    ensures yielded == before + [commit]
    ensures read ==> |Tokens(reader.Rest())| < |tokens|
    ensures read ==> Prepend(before, ParseBody(commit, tokens, open, valid))
                     == Prepend(yielded, ParseBody(next, Tokens(reader.Rest()), Open(reader.Rest()), valid))
    ensures !read ==> Prepend(before, ParseBody(commit, tokens, open, valid)) == Parsed(yielded, false)
  {
    yielded := before + [commit];
    read, next := Header(reader, hash, valid);
    if read {
      Onward(before, commit, ParseBody(next, Tokens(reader.Rest()), Open(reader.Rest()), valid));
    }
  }
}
