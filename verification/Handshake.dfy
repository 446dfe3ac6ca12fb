/** The protocol check: one read into a zero-filled buffer, compared as a C string with the secret. */
module Handshake {
  import opened Wrappers

  const SECRET := "<cs407rembash>\n"
  const REMBASH := "<rembash>\n"
  const OK := "<ok>\n"
  const ERROR := "<error>\n"
  const INPUT_SIZE := 4096
  const NUL: char := '\0'

  /** What C reads of a buffer as a string: everything before the first NUL. */
  function CString(buf: string): string {
    if buf == [] || buf[0] == NUL then [] else [buf[0]] + CString(buf[1..])
  }

  /** The buffer after a read of m: the bytes read, then the zeros it was filled with. */
  function Buffer(m: string): string
    requires |m| <= INPUT_SIZE
  {
    m + seq(INPUT_SIZE - |m|, i => NUL)
  }

  /** What a client's first read means: no message is a failed read. */
  predicate Accepts(message: Option<string>)
    requires message.Some? ==> |message.value| <= INPUT_SIZE
  {
    message.Some? && CString(Buffer(message.value)) == SECRET
  }

  /** What a client has to say first: the secret, alone or followed by a NUL and anything. */
  predicate GivesSecret(message: Option<string>) {
    message.Some? && (message.value == "<cs407rembash>\n" || "<cs407rembash>\n\0" <= message.value)
  }

  /** What the server replies before it closes the connection of a refused client. */
  function Refusal(message: Option<string>): string {
    if message.Some? then ERROR else ""
  }

  lemma {:induction false} CStringOfText(text: string, rest: string)
    requires NUL !in text
    ensures CString(text + rest) == text + CString(rest)
  {
    if text == [] {
      assert text + rest == rest;
    } else {
      assert (text + rest)[1..] == text[1..] + rest;
      CStringOfText(text[1..], rest);
    }
  }

  lemma {:induction false} CStringIsPrefix(buf: string)
    ensures CString(buf) <= buf && NUL !in CString(buf)
    ensures |CString(buf)| < |buf| ==> buf[|CString(buf)|] == NUL
  {
    if buf != [] && buf[0] != NUL {
      CStringIsPrefix(buf[1..]);
    }
  }

  /** A buffer that reads as the secret starts with the secret and its NUL. */
  lemma ReadsAsSecret(m: string)
    requires |m| <= INPUT_SIZE && CString(Buffer(m)) == SECRET
    ensures m == SECRET || SECRET + [NUL] <= m
  {
    var buf := Buffer(m);
    CStringIsPrefix(buf);
    assert buf[..|SECRET| + 1] == SECRET + [NUL];
    if |m| > |SECRET| {
      assert m[..|SECRET| + 1] == buf[..|SECRET| + 1];
    } else {
      assert buf[|m|] == NUL;
      assert forall i | 0 <= i < |SECRET| :: buf[i] == SECRET[i] && SECRET[i] in SECRET && buf[i] != NUL;
      assert |m| == |SECRET|;
    }
  }

  /** A message is accepted if and only if it is the secret, alone or followed by a NUL and anything. */
  lemma AcceptsExactly(m: string)
    requires |m| <= INPUT_SIZE
    ensures Accepts(Some(m)) <==> GivesSecret(Some(m))
  {
    assert SECRET + [NUL] == "<cs407rembash>\n\0";
    if m == SECRET || SECRET + [NUL] <= m {
      var rest := Buffer(m)[|SECRET|..];
      assert Buffer(m) == SECRET + rest && rest[0] == NUL;
      CStringOfText(SECRET, rest);
    } else if CString(Buffer(m)) == SECRET {
      ReadsAsSecret(m);
    }
  }
}
