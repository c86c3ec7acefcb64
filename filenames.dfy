/**
  The file name given to a generated image, shared by the command-line client
  and the chat bot: every maximal run of characters outside `[a-zA-Z0-9-_]`
  becomes one `-`, the result is cut to 96 characters, and `-`, the first 8 hex
  characters of the image's SHA-256 digest and `.png` follow.
*/
module FileNames {

  newtype byte = x: int | 0 <= x < 256

  type Bytes = seq<byte>

  predicate IsLowerHex(c: char) {
    '0' <= c <= '9' || 'a' <= c <= 'f'
  }

  /** What `hashlib.sha256(data).hexdigest()` returns: 64 lower-case hex characters.
      The digest itself is computed outside the model. */
  type HexDigest = s: string | |s| == 64 && forall i :: 0 <= i < |s| ==> IsLowerHex(s[i])
    witness seq(64, _ => '0')

  /** Length of the file-name prefix taken from the prompt. */
  const PrefixLength: nat := 96

  /** Length of the hash part of a file name. */
  const HashLength: nat := 8

  const Extension: string := ".png"

  /** The characters the pattern `[^a-zA-Z0-9-_]+` does not match. */
  predicate IsSafeChar(c: char) {
    'a' <= c <= 'z' || 'A' <= c <= 'Z' || '0' <= c <= '9' || c == '-' || c == '_'
  }

  predicate IsSafe(s: string) {
    forall i :: 0 <= i < |s| ==> IsSafeChar(s[i])
  }

  predicate IsAllUnsafe(s: string) {
    forall i :: 0 <= i < |s| ==> !IsSafeChar(s[i])
  }

  /** The length of the run of unsafe characters at the head of `s`. */
  function UnsafeRunLength(s: string): (n: nat)
    ensures n <= |s|
    ensures n < |s| ==> IsSafeChar(s[n])
  {
    if s != [] && !IsSafeChar(s[0]) then 1 + UnsafeRunLength(s[1..]) else 0
  }

  /** The run `UnsafeRunLength` counts is made of unsafe characters. */
  lemma {:induction false} UnsafeRunIsUnsafe(s: string)
    ensures forall i :: 0 <= i < UnsafeRunLength(s) ==> !IsSafeChar(s[i])
  {
    if s != [] && !IsSafeChar(s[0]) {
      UnsafeRunIsUnsafe(s[1..]);
      forall i | 1 <= i < UnsafeRunLength(s) ensures !IsSafeChar(s[i]) {
        assert s[i] == s[1..][i - 1];
      }
    }
  }

  /** Drops the run of unsafe characters at the head of `s`. */
  function SkipUnsafe(s: string): string {
    s[UnsafeRunLength(s)..]
  }

  /** `unsafe_chars.sub('-', s)`: safe characters are copied, and each maximal run
      of unsafe characters is replaced by a single `-`. */
  function Sanitize(s: string): string
    decreases |s|
  {
    if s == [] then []
    else if IsSafeChar(s[0]) then [s[0]] + Sanitize(s[1..])
    else "-" + Sanitize(SkipUnsafe(s[1..]))
  }

  /** The substitution can only shorten the text, and empties only the empty text. */
  lemma {:induction false} SanitizeLength(s: string)
    ensures |Sanitize(s)| <= |s|
    ensures Sanitize(s) == [] <==> s == []
    decreases |s|
  {
    if s != [] {
      if IsSafeChar(s[0]) {
        SanitizeLength(s[1..]);
      } else {
        SanitizeLength(SkipUnsafe(s[1..]));
      }
    }
  }

  /** Every character the substitution produces is in `[a-zA-Z0-9-_]`. */
  lemma {:induction false} SanitizeIsSafe(s: string)
    ensures IsSafe(Sanitize(s))
    decreases |s|
  {
    if s != [] {
      if IsSafeChar(s[0]) {
        SanitizeIsSafe(s[1..]);
      } else {
        SanitizeIsSafe(SkipUnsafe(s[1..]));
      }
    }
  }

  /** A safe prefix is copied unchanged, ahead of the substitution of the rest. */
  lemma {:induction false} SanitizeSafePrefix(p: string, s: string)
    requires IsSafe(p)
    ensures Sanitize(p + s) == p + Sanitize(s)
  {
    if p != [] {
      var tail := p[1..] + s;
      assert p + s == [p[0]] + tail;
      assert IsSafe(p[1..]) by {
        forall i | 0 <= i < |p| - 1 ensures IsSafeChar(p[1..][i]) {
          assert p[1..][i] == p[i + 1];
        }
      }
      SanitizeSafePrefix(p[1..], s);
      calc {
        Sanitize(p + s);
        Sanitize([p[0]] + tail);
        { SanitizeSafeHead(p[0], tail); }
        [p[0]] + Sanitize(tail);
        [p[0]] + (p[1..] + Sanitize(s));
        { assert [p[0]] + p[1..] == p; }
        p + Sanitize(s);
      }
    } else {
      assert p + s == s;
    }
  }

  lemma SanitizeSafeHead(c: char, s: string)
    requires IsSafeChar(c)
    ensures Sanitize([c] + s) == [c] + Sanitize(s)
  {
    assert ([c] + s)[1..] == s;
  }

  /** A non-empty run of unsafe characters followed by a safe character (or by
      nothing) becomes exactly one `-`. */
  lemma {:induction false} SanitizeUnsafeRun(u: string, s: string)
    requires u != [] && IsAllUnsafe(u)
    requires s == [] || IsSafeChar(s[0])
    ensures Sanitize(u + s) == "-" + Sanitize(s)
  {
    assert (u + s)[0] == u[0];
    assert (u + s)[1..] == u[1..] + s;
    SkipUnsafeRun(u[1..], s);
  }

  lemma SkipUnsafeRun(u: string, s: string)
    requires IsAllUnsafe(u)
    requires s == [] || IsSafeChar(s[0])
    ensures SkipUnsafe(u + s) == s
  {
    UnsafeRunOfPrefix(u, s);
    assert (u + s)[|u|..] == s;
  }

  lemma {:induction false} UnsafeRunOfPrefix(u: string, s: string)
    requires IsAllUnsafe(u)
    requires s == [] || IsSafeChar(s[0])
    ensures UnsafeRunLength(u + s) == |u|
  {
    if u != [] {
      assert (u + s)[0] == u[0];
      assert (u + s)[1..] == u[1..] + s;
      UnsafeRunOfPrefix(u[1..], s);
    } else {
      assert u + s == s;
    }
  }

  /** Text that is already safe is left unchanged. */
  lemma SanitizeFixesSafe(s: string)
    requires IsSafe(s)
    ensures Sanitize(s) == s
  {
    SanitizeSafePrefix(s, []);
    assert s + [] == s;
  }

  /** The substitution is idempotent. */
  lemma SanitizeIdempotent(s: string)
    ensures Sanitize(Sanitize(s)) == Sanitize(s)
  {
    SanitizeIsSafe(s);
    SanitizeFixesSafe(Sanitize(s));
  }

  /** The word characters `[a-zA-Z0-9_]` of `s`, in order: the characters the
      substitution neither removes nor can introduce. */
  function WordChars(s: string): string {
    if s == [] then []
    else if IsSafeChar(s[0]) && s[0] != '-' then [s[0]] + WordChars(s[1..])
    else WordChars(s[1..])
  }

  lemma {:induction false} WordCharsOfUnsafe(u: string, s: string)
    requires IsAllUnsafe(u)
    ensures WordChars(u + s) == WordChars(s)
  {
    if u != [] {
      assert (u + s)[1..] == u[1..] + s;
      WordCharsOfUnsafe(u[1..], s);
    } else {
      assert u + s == s;
    }
  }

  /** The substitution keeps every word character of the prompt, in order, and adds none. */
  lemma {:induction false} SanitizeKeepsWordChars(s: string)
    ensures WordChars(Sanitize(s)) == WordChars(s)
    decreases |s|
  {
    if s != [] {
      if IsSafeChar(s[0]) {
        SanitizeKeepsWordChars(s[1..]);
        assert ([s[0]] + Sanitize(s[1..]))[1..] == Sanitize(s[1..]);
      } else {
        var t := s[1..];
        var n := UnsafeRunLength(t);
        var rest := t[n..];
        SanitizeKeepsWordChars(rest);
        assert ("-" + Sanitize(rest))[1..] == Sanitize(rest);
        var run := t[..n];
        assert IsAllUnsafe(run) by {
          UnsafeRunIsUnsafe(t);
          forall i | 0 <= i < |run| ensures !IsSafeChar(run[i]) {
            assert run[i] == t[i];
          }
        }
        assert t == run + rest;
        WordCharsOfUnsafe(run, rest);
      }
    }
  }

  /** `unsafe_chars.sub('-', prompt)[:96]`: the substitution first, then the cut. */
  function NamePrefix(prompt: string): (r: string)
    ensures |r| <= PrefixLength
    ensures IsSafe(r)
    ensures r <= Sanitize(prompt)
    ensures |r| == if |Sanitize(prompt)| <= PrefixLength then |Sanitize(prompt)| else PrefixLength
  {
    SanitizeIsSafe(prompt);
    var s := Sanitize(prompt);
    if |s| <= PrefixLength then s else s[..PrefixLength]
  }

  /** The cut is taken after the substitution: a prompt of 100 spaces and `cat`
      keeps `cat`, which cutting the prompt first would have lost. */
  lemma TruncatesAfterSubstitution()
    ensures var prompt := seq(100, _ => ' ') + "cat";
      NamePrefix(prompt) == "-cat" && Sanitize(prompt[..PrefixLength]) == "-"
  {
    var spaces := seq(100, _ => ' ');
    var prompt := spaces + "cat";
    assert IsAllUnsafe(spaces);
    SanitizeUnsafeRun(spaces, "cat");
    SanitizeFixesSafe("cat");
    assert prompt[..PrefixLength] == spaces[..PrefixLength];
    SanitizeUnsafeRun(spaces[..PrefixLength], []);
    assert spaces[..PrefixLength] + [] == spaces[..PrefixLength];
  }

  /** `f"{unsafe_chars.sub('-', prompt)[:96]}-{hexdigest[:8]}.png"`. */
  function FileName(prompt: string, digest: HexDigest): string {
    NamePrefix(prompt) + "-" + digest[..HashLength] + Extension
  }

  /** Reads a file name back into its prompt part and its hash part, when it has
      the shape `<prefix>-<8 characters>.png`. */
  function SplitFileName(name: string): (r: (string, string))
    requires |name| >= HashLength + 1 + |Extension|
  {
    var n := |name|;
    (name[..n - 13], name[n - 12..n - 4])
  }

  /** The file name determines the prompt prefix and the hash part. */
  lemma FileNameParts(prompt: string, digest: HexDigest)
    ensures var name := FileName(prompt, digest);
      |name| >= HashLength + 1 + |Extension|
      && SplitFileName(name) == (NamePrefix(prompt), digest[..HashLength])
      && name[|name| - 13] == '-' && name[|name| - 4..] == Extension
  {
    var p := NamePrefix(prompt);
    var name := FileName(prompt, digest);
    assert name[..|name| - 13] == p;
    assert name[|name| - 12..|name| - 4] == digest[..HashLength];
  }

  /** A file name has at most 96 + 13 characters, all in `[a-zA-Z0-9-_.]`. */
  lemma FileNameShape(prompt: string, digest: HexDigest)
    ensures var name := FileName(prompt, digest);
      |name| <= PrefixLength + 1 + HashLength + |Extension|
      && forall i :: 0 <= i < |name| ==> IsSafeChar(name[i]) || name[i] == '.'
  {
    var name := FileName(prompt, digest);
    var p := NamePrefix(prompt);
    forall i | 0 <= i < |name| ensures IsSafeChar(name[i]) || name[i] == '.' {
      if i < |p| {
        assert name[i] == p[i];
      } else if i == |p| {
        assert name[i] == '-';
      } else if i < |p| + 1 + HashLength {
        assert name[i] == digest[i - |p| - 1];
      } else {
        assert name[i] == Extension[i - |p| - 1 - HashLength];
      }
    }
  }

  /** The same image always gives the same hash part, whatever the prompts. */
  lemma SameImageSameSuffix(p1: string, p2: string, image: Bytes, sha256: Bytes -> HexDigest)
    ensures SplitFileName(FileName(p1, sha256(image))).1 == SplitFileName(FileName(p2, sha256(image))).1
  {
    FileNameParts(p1, sha256(image));
    FileNameParts(p2, sha256(image));
  }

  /** The same prompt always gives the same prefix, whatever the images. */
  lemma SamePromptSamePrefix(prompt: string, i1: Bytes, i2: Bytes, sha256: Bytes -> HexDigest)
    ensures SplitFileName(FileName(prompt, sha256(i1))).0 == SplitFileName(FileName(prompt, sha256(i2))).0
  {
    FileNameParts(prompt, sha256(i1));
    FileNameParts(prompt, sha256(i2));
  }
}
