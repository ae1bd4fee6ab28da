/**
  JSON Pointer (RFC 6901): a pointer is a sequence of reference tokens,
  each written as "/" followed by the token with "~" escaped as "~0" and
  "/" escaped as "~1" (section 3 and section 4 of RFC 6901). The webhook's
  patch path is written in this form.
*/
module JsonPointer {
  import opened Common

  function EscapeChar(c: char): (s: string)
    ensures '/' !in s
  {
    if c == '~' then "~0" else if c == '/' then "~1" else [c]
  }

  /** The escaped form of one reference token. */
  function Escape(token: string): (s: string)
    ensures '/' !in s
  {
    if token == [] then [] else EscapeChar(token[0]) + Escape(token[1..])
  }

  /** Undo `Escape`; a "~" not followed by "0" or "1" is malformed. */
  function Unescape(s: string): Option<string>
  {
    if s == [] then Some([])
    else if s[0] != '~' then Prepend(s[0], Unescape(s[1..]))
    else if |s| >= 2 && s[1] == '0' then Prepend('~', Unescape(s[2..]))
    else if |s| >= 2 && s[1] == '1' then Prepend('/', Unescape(s[2..]))
    else None
  }

  function Prepend(c: char, o: Option<string>): Option<string>
  {
    if o.Some? then Some([c] + o.value) else None
  }

  /** A token with neither "~" nor "/" is written as it is. */
  lemma {:induction false} EscapePlain(token: string)
    requires '~' !in token && '/' !in token
    ensures Escape(token) == token
  {
    if token != [] {
      assert token[0] in token;
      assert forall k :: 0 <= k < |token[1..]| ==> token[1..][k] in token;
      EscapePlain(token[1..]);
      assert [token[0]] + token[1..] == token;
    }
  }

  /** A token that needs no escaping. */
  predicate Plain(token: string)
  {
    '~' !in token && '/' !in token
  }

  /** Two plain tokens joined by "/" escape to the same tokens joined by "~1". */
  lemma EscapeSlashJoin(a: string, b: string)
    requires Plain(a) && Plain(b)
    ensures Escape(a + "/" + b) == a + "~1" + b
  {
    EscapePlain(a);
    EscapePlain(b);
    EscapeAppend(a + "/", b);
    EscapeAppend(a, "/");
    assert Escape("/") == "~1";
  }

  /** Escaping works piece by piece. */
  lemma {:induction false} EscapeAppend(a: string, b: string)
    ensures Escape(a + b) == Escape(a) + Escape(b)
  {
    if a != [] {
      assert (a + b)[0] == a[0] && (a + b)[1..] == a[1..] + b;
      EscapeAppend(a[1..], b);
    } else {
      assert a + b == b;
    }
  }

  /** The pointer that designates `tokens`, one "/"-prefixed escaped token each. */
  function Format(tokens: seq<string>): (p: string)
    ensures tokens != [] ==> |p| >= 1 && p[0] == '/'
  {
    if tokens == [] then "" else "/" + Escape(tokens[0]) + Format(tokens[1..])
  }

  /** A plain leading token is written as "/" and itself. */
  lemma FormatPlainCons(token: string, rest: seq<string>)
    requires Plain(token)
    ensures Format([token] + rest) == "/" + token + Format(rest)
  {
    assert ([token] + rest)[1..] == rest;
    EscapePlain(token);
  }

  /** The pieces of `s` between "/" separators (one piece when there is none). */
  function Split(s: string): (pieces: seq<string>)
    ensures |pieces| >= 1
  {
    if s == [] then [""]
    else if s[0] == '/' then [""] + Split(s[1..])
    else var rest := Split(s[1..]); [[s[0]] + rest[0]] + rest[1..]
  }

  function UnescapeAll(pieces: seq<string>): Option<seq<string>>
  {
    if pieces == [] then Some([])
    else
      var head := Unescape(pieces[0]);
      var tail := UnescapeAll(pieces[1..]);
      if head.Some? && tail.Some? then Some([head.value] + tail.value) else None
  }

  /** The reference tokens of pointer `p`: "" is the whole document, otherwise `p` starts with "/". */
  function Parse(p: string): Option<seq<string>>
  {
    if p == [] then Some([])
    else if p[0] != '/' then None
    else UnescapeAll(Split(p[1..]))
  }

  lemma {:induction false} UnescapeEscape(token: string)
    ensures Unescape(Escape(token)) == Some(token)
  {
    if token != [] {
      var c, rest := token[0], Escape(token[1..]);
      UnescapeEscape(token[1..]);
      var s := EscapeChar(c) + rest;
      assert Escape(token) == s;
      assert [c] + token[1..] == token;
      if c == '~' {
        assert s[0] == '~' && s[1] == '0' && s[2..] == rest;
      } else if c == '/' {
        assert s[0] == '~' && s[1] == '1' && s[2..] == rest;
      } else {
        assert s[0] == c && s[1..] == rest;
      }
    }
  }

  /** A piece without "/" followed by "/" starts a new piece. */
  lemma {:induction false} SplitAt(a: string, b: string)
    requires '/' !in a
    ensures Split(a + "/" + b) == [a] + Split(b)
  {
    var s := a + "/" + b;
    if a != [] {
      assert a[0] in a;
      assert s[0] == a[0] && s[1..] == a[1..] + "/" + b;
      assert forall k :: 0 <= k < |a[1..]| ==> a[1..][k] in a;
      SplitAt(a[1..], b);
      assert [a[0]] + a[1..] == a;
    } else {
      assert s == "/" + b && s[1..] == b;
    }
  }

  lemma {:induction false} SplitWhole(a: string)
    requires '/' !in a
    ensures Split(a) == [a]
  {
    if a != [] {
      assert a[0] in a;
      assert forall k :: 0 <= k < |a[1..]| ==> a[1..][k] in a;
      SplitWhole(a[1..]);
      assert [a[0]] + a[1..] == a;
    }
  }

  lemma {:induction false} SplitFormat(tokens: seq<string>)
    requires tokens != []
    ensures Split(Format(tokens)[1..]) == EscapeAll(tokens)
    decreases |tokens|, 0
  {
    var head, rest := Escape(tokens[0]), Format(tokens[1..]);
    assert Format(tokens)[1..] == head + rest by {
      assert Format(tokens) == "/" + head + rest;
    }
    assert EscapeAll(tokens) == [head] + EscapeAll(tokens[1..]);
    if tokens[1..] == [] {
      assert head + rest == head;
      SplitWhole(head);
    } else {
      SplitFormatCons(head, tokens[1..]);
    }
  }

  lemma {:induction false} SplitFormatCons(head: string, tokens: seq<string>)
    requires '/' !in head && tokens != []
    ensures Split(head + Format(tokens)) == [head] + EscapeAll(tokens)
    decreases |tokens|, 1
  {
    var rest := Format(tokens);
    var tail := rest[1..];
    assert head + rest == head + "/" + tail by {
      assert rest == "/" + tail;
    }
    SplitAt(head, tail);
    SplitFormat(tokens);
  }

  function EscapeAll(tokens: seq<string>): (escaped: seq<string>)
    ensures |escaped| == |tokens|
  {
    if tokens == [] then [] else [Escape(tokens[0])] + EscapeAll(tokens[1..])
  }

  lemma {:induction false} UnescapeAllEscapeAll(tokens: seq<string>)
    ensures UnescapeAll(EscapeAll(tokens)) == Some(tokens)
  {
    if tokens != [] {
      UnescapeEscape(tokens[0]);
      UnescapeAllEscapeAll(tokens[1..]);
      var e := EscapeAll(tokens);
      assert e[0] == Escape(tokens[0]) && e[1..] == EscapeAll(tokens[1..]);
      assert [tokens[0]] + tokens[1..] == tokens;
    }
  }

  /** Every list of tokens is recovered from the pointer that designates it. */
  lemma {:induction false} ParseFormat(tokens: seq<string>)
    ensures Parse(Format(tokens)) == Some(tokens)
  {
    if tokens != [] {
      SplitFormat(tokens);
      UnescapeAllEscapeAll(tokens);
    }
  }
}
