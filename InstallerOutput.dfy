/**
 * The output consumer of the CMake installer process
 * (src/cmake/cmakeInstallerOutputConsumer.ts): each chunk of output is cut at carriage
 * returns, each piece is trimmed, and a trimmed piece that begins with an ASCII letter
 * is appended to the output channel; an error line is logged when a logger is attached
 * and always appended to the channel.
 */
module InstallerOutput {
  import opened JsStrings

  /** The regular expression `^[a-zA-Z]+` finds a match in `s`. */
  predicate BeginsWithLetter(s: string) {
    s != [] && IsAsciiLetter(s[0])
  }

  /** The trimmed pieces the channel shows, in order. */
  function Kept(pieces: seq<string>): seq<string> {
    if pieces == [] then []
    else
      var init := Kept(pieces[..|pieces| - 1]);
      var s := Trim(pieces[|pieces| - 1]);
      if BeginsWithLetter(s) then init + [s] else init
  }

  /** The lines `output(line)` appends to the channel. */
  function KeptSegments(line: string): seq<string> {
    Kept(Split(line, '\r'))
  }

  /** Trimming keeps a slice of the string. */
  lemma TrimWithin(s: string)
    ensures forall c :: c in Trim(s) ==> c in s
  {
    var t := s[LeadingWhiteSpace(s)..];
    assert Trim(s) == t[..|t| - TrailingWhiteSpace(t)];
    forall c | c in Trim(s)
      ensures c in s
    {
      var k :| 0 <= k < |Trim(s)| && Trim(s)[k] == c;
      assert s[LeadingWhiteSpace(s) + k] == c;
    }
  }

  /** Every line shown is trimmed, begins with a letter and holds no carriage return
      when no piece did. */
  lemma {:induction false} KeptShape(pieces: seq<string>)
    ensures |Kept(pieces)| <= |pieces|
    ensures forall k :: 0 <= k < |Kept(pieces)| ==> IsTrimmed(Kept(pieces)[k]) && BeginsWithLetter(Kept(pieces)[k])
    ensures (forall j :: 0 <= j < |pieces| ==> '\r' !in pieces[j]) ==>
              forall k :: 0 <= k < |Kept(pieces)| ==> '\r' !in Kept(pieces)[k]
  {
    if pieces != [] {
      var last := pieces[|pieces| - 1];
      KeptShape(pieces[..|pieces| - 1]);
      TrimSpec(last);
      TrimWithin(last);
    }
  }

  /** A line is shown exactly when some piece trims to it and it begins with a letter. */
  lemma {:induction false} KeptMembership(pieces: seq<string>, t: string)
    ensures t in Kept(pieces) <==> BeginsWithLetter(t) && exists j :: 0 <= j < |pieces| && Trim(pieces[j]) == t
  {
    if pieces != [] {
      var init := pieces[..|pieces| - 1];
      KeptMembership(init, t);
      if t in Kept(pieces) && t !in Kept(init) {
        assert Trim(pieces[|pieces| - 1]) == t;
      }
      if BeginsWithLetter(t) && (exists j :: 0 <= j < |pieces| && Trim(pieces[j]) == t) {
        var j :| 0 <= j < |pieces| && Trim(pieces[j]) == t;
        if j < |init| {
          assert init[j] == pieces[j];
        }
      }
    }
  }

  /** The lines shown for two runs of pieces are those of the first, then the second. */
  lemma {:induction false} KeptAppend(a: seq<string>, b: seq<string>)
    ensures Kept(a + b) == Kept(a) + Kept(b)
    decreases |b|
  {
    if b == [] {
      assert a + b == a;
    } else {
      KeptAppend(a, b[..|b| - 1]);
      assert (a + b)[..|a + b| - 1] == a + b[..|b| - 1];
      assert (a + b)[|a + b| - 1] == b[|b| - 1];
    }
  }

  /** Output without a carriage return shows its trimmed text when that begins with a
      letter, and nothing otherwise. */
  lemma SingleSegment(line: string)
    requires '\r' !in line
    ensures BeginsWithLetter(Trim(line)) ==> KeptSegments(line) == [Trim(line)]
    ensures !BeginsWithLetter(Trim(line)) ==> KeptSegments(line) == []
  {
    SplitNoSeparator(line, '\r');
    var pieces := Split(line, '\r');
    assert pieces[..|pieces| - 1] == [] && pieces[|pieces| - 1] == line;
  }

  /** Output that is only white space and carriage returns shows nothing. */
  lemma {:induction false} BlankOutputShowsNothing(pieces: seq<string>)
    requires forall j :: 0 <= j < |pieces| ==> AllWhiteSpace(pieces[j])
    ensures Kept(pieces) == []
  {
    if pieces != [] {
      BlankOutputShowsNothing(pieces[..|pieces| - 1]);
      TrimSpec(pieces[|pieces| - 1]);
    }
  }

  class CMakeInstallerOutputConsumer {
    /** The lines appended to the output channel, oldest first. */
    var channel: seq<string>
    /** A logger was passed to the constructor. */
    const hasLogger: bool
    /** The errors handed to the logger, oldest first. */
    var loggedErrors: seq<string>

    constructor(hasLogger: bool)
      ensures this.hasLogger == hasLogger && channel == [] && loggedErrors == []
    {
      this.hasLogger := hasLogger;
      channel := [];
      loggedErrors := [];
    }

    /** output(line): the kept pieces are appended to the channel in order. */
    method Output(line: string)
      modifies this
      ensures channel == old(channel) + KeptSegments(line)
      ensures loggedErrors == old(loggedErrors)
    {
      var pieces := Split(line, '\r');
      var i := 0;
      while i < |pieces|
        invariant 0 <= i <= |pieces|
        invariant channel == old(channel) + Kept(pieces[..i])
        invariant loggedErrors == old(loggedErrors)
      {
        var s := Trim(pieces[i]);
        assert pieces[..i + 1][..i] == pieces[..i];
        if |s| > 0 && IsAsciiLetter(s[0]) {
          channel := channel + [s];
        }
        i := i + 1;
      }
      assert pieces[..i] == pieces;
    }

    /** error(error): logged when there is a logger, and appended to the channel. */
    method Error(error: string)
      modifies this
      ensures channel == old(channel) + [error]
      ensures loggedErrors == if hasLogger then old(loggedErrors) + [error] else old(loggedErrors)
    {
      if hasLogger {
        loggedErrors := loggedErrors + [error];
      }
      channel := channel + [error];
    }
  }
}
