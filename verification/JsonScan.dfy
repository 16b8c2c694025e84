/**
 The scanners that take a JSON block out of surrounding text and repair raw control
 characters inside its strings.  A character stands for one byte.
 */
module JsonScan {
  /** Where a scanner is: inside a string, and right after a backslash there. */
  datatype Mode = Mode(inString: bool, escaped: bool)

  const OUTSIDE := Mode(false, false)

  function NextMode(m: Mode, ch: char): Mode {
    if m.escaped then m.(escaped := false)
    else if ch == '\\' && m.inString then m.(escaped := true)
    else if ch == '"' then m.(inString := !m.inString)
    else m
  }

  /** The mode after reading `s` from the start. */
  function ModeOf(s: string): Mode {
    if s == [] then OUTSIDE else NextMode(ModeOf(s[..|s| - 1]), s[|s| - 1])
  }

  function Delta(m: Mode, ch: char, opener: char, closer: char): int {
    if m.escaped || m.inString then 0 else if ch == opener then 1 else if ch == closer then -1 else 0
  }

  /** Openers minus closers outside strings. */
  function Depth(s: string, opener: char, closer: char): int {
    if s == [] then 0
    else Depth(s[..|s| - 1], opener, closer) + Delta(ModeOf(s[..|s| - 1]), s[|s| - 1], opener, closer)
  }

  predicate IsOpener(ch: char) {
    ch == '{' || ch == '['
  }

  function CloserOf(opener: char): char {
    if opener == '[' then ']' else '}'
  }

  predicate IsControl(ch: char) {
    ch == '\n' || ch == '\r' || ch == '\t'
  }

  /** A raw control character the scanner would replace. */
  predicate Raw(m: Mode, ch: char) {
    m.inString && !m.escaped && IsControl(ch)
  }

  function EscapeLetter(ch: char): char {
    if ch == '\n' then 'n' else if ch == '\r' then 'r' else 't'
  }

  function Image(m: Mode, ch: char): string {
    if Raw(m, ch) then ['\\', EscapeLetter(ch)] else [ch]
  }

  function Sanitized(s: string): string {
    if s == [] then [] else Sanitized(s[..|s| - 1]) + Image(ModeOf(s[..|s| - 1]), s[|s| - 1])
  }

  // ---- what a JSON text says, after section 7 of RFC 8259 ----

  /** Where a reader is: between strings, in a string, or after a backslash in a string. */
  datatype Reader = Text | Inside | AfterBackslash

  /** `Plain` stands outside strings, `Char` in a string; `Escape` is an escape that is no single character. */
  datatype Unit = Plain(ch: char) | Char(ch: char) | Escape(ch: char)

  function Reading(s: string): Reader {
    if s == [] then Text
    else
      var ch := s[|s| - 1];
      match Reading(s[..|s| - 1])
      case Text => if ch == '"' then Inside else Text
      case Inside => if ch == '"' then Text else if ch == '\\' then AfterBackslash else Inside
      case AfterBackslash => Inside
  }

  /** The character an escape stands for. */
  function Unescaped(ch: char): Unit {
    match ch
    case '"' => Char('"')
    case '\\' => Char('\\')
    case '/' => Char('/')
    case 'b' => Char(8 as char)
    case 'f' => Char(12 as char)
    case 'n' => Char('\n')
    case 'r' => Char('\r')
    case 't' => Char('\t')
    case _ => Escape(ch)
  }

  function UnitsOf(at: Reader, ch: char): seq<Unit> {
    match at
    case Text => [Plain(ch)]
    case Inside => if ch == '"' then [Plain(ch)] else if ch == '\\' then [] else [Char(ch)]
    case AfterBackslash => [Unescaped(ch)]
  }

  /** The text as it is read: escapes in strings stand for their characters, everything else for itself. */
  function Decoded(s: string): seq<Unit> {
    if s == [] then [] else Decoded(s[..|s| - 1]) + UnitsOf(Reading(s[..|s| - 1]), s[|s| - 1])
  }

  /** No raw newline, carriage return or tab at an unescaped position inside a string. */
  ghost predicate Clean(s: string) {
    forall k | 0 <= k < |s| && Reading(s[..k]) == Inside :: s[k] != '\n' && s[k] != '\r' && s[k] != '\t'
  }

  /** `e` ends a block that starts at `start`: its last character is the closer that brings the depth back to zero. */
  ghost predicate Ends(s: string, start: nat, opener: char, closer: char, e: nat)
    requires start <= |s|
  {
    && start < e <= |s| && Depth(s[start..e], opener, closer) == 0
    && s[e - 1] == closer && ModeOf(s[start..e - 1]) == OUTSIDE
  }

  ghost predicate FirstEnd(s: string, start: nat, opener: char, closer: char, e: nat)
    requires start <= |s|
  {
    Ends(s, start, opener, closer, e) && forall d: nat | start < d < e :: !Ends(s, start, opener, closer, d)
  }

  lemma Append(s: string, ch: char, opener: char, closer: char)
    ensures ModeOf(s + [ch]) == NextMode(ModeOf(s), ch)
    ensures Depth(s + [ch], opener, closer) == Depth(s, opener, closer) + Delta(ModeOf(s), ch, opener, closer)
    ensures Sanitized(s + [ch]) == Sanitized(s) + Image(ModeOf(s), ch)
  {
    assert (s + [ch])[..|s|] == s;
  }

  lemma DecodedAppend(s: string, ch: char)
    ensures Decoded(s + [ch]) == Decoded(s) + UnitsOf(Reading(s), ch)
    ensures Reading(s + [ch]) ==
            match Reading(s)
            case Text => if ch == '"' then Inside else Text
            case Inside => if ch == '"' then Text else if ch == '\\' then AfterBackslash else Inside
            case AfterBackslash => Inside
  {
    assert (s + [ch])[..|s|] == s;
  }

  /** The scanners' flags are the reader's position. */
  lemma {:induction false} ModeIsReading(s: string)
    ensures ModeOf(s) ==
            match Reading(s)
            case Text => Mode(false, false)
            case Inside => Mode(true, false)
            case AfterBackslash => Mode(true, true)
  {
    if s != [] {
      ModeIsReading(s[..|s| - 1]);
    }
  }

  lemma DeltaCounts(m: Mode, at: Reader, ch: char, opener: char, closer: char)
    requires opener != closer && opener != '"' && closer != '"'
    requires m == match at
                  case Text => Mode(false, false)
                  case Inside => Mode(true, false)
                  case AfterBackslash => Mode(true, true)
    ensures Delta(m, ch, opener, closer) + multiset(UnitsOf(at, ch))[Plain(closer)] == multiset(UnitsOf(at, ch))[Plain(opener)]
  {
  }

  /** The depth is the number of openers minus the number of closers that stand outside strings. */
  lemma {:induction false} DepthCountsPlain(s: string, opener: char, closer: char)
    requires opener != closer && opener != '"' && closer != '"'
    ensures Depth(s, opener, closer) + multiset(Decoded(s))[Plain(closer)] == multiset(Decoded(s))[Plain(opener)]
  {
    hide ModeOf, Reading, UnitsOf, Delta;
    if s != [] {
      var p, ch := s[..|s| - 1], s[|s| - 1];
      DepthCountsPlain(p, opener, closer);
      ModeIsReading(p);
      DeltaCounts(ModeOf(p), Reading(p), ch, opener, closer);
      assert Decoded(s) == Decoded(p) + UnitsOf(Reading(p), ch);
    }
  }

  lemma Nothing(opener: char, closer: char)
    ensures ModeOf([]) == OUTSIDE && Depth([], opener, closer) == 0 && Sanitized([]) == []
  {
  }

  lemma NoEndYet(s: string, start: nat, opener: char, closer: char)
    requires start <= |s|
    ensures forall e: nat | Ends(s, start, opener, closer, e) :: start < e <= |s|
  {
  }

  lemma EndsHere(s: string, start: nat, opener: char, closer: char, i: nat)
    requires start <= i < |s| && opener != closer
    ensures Ends(s, start, opener, closer, i + 1) <==>
            s[i] == closer && ModeOf(s[start..i]) == OUTSIDE && Depth(s[start..i], opener, closer) == 1
    ensures ModeOf(s[start..i + 1]) == NextMode(ModeOf(s[start..i]), s[i])
    ensures Depth(s[start..i + 1], opener, closer)
            == Depth(s[start..i], opener, closer) + Delta(ModeOf(s[start..i]), s[i], opener, closer)
  {
    assert s[start..i + 1] == s[start..i] + [s[i]];
    Append(s[start..i], s[i], opener, closer);
  }

  // ---- the scanners ----

  method FindJSONStart(s: string) returns (start: int, opener: char)
    ensures -1 <= start < |s|
    ensures start == -1 ==> forall k | 0 <= k < |s| :: s[k] != '{' && s[k] != '['
    ensures start >= 0 ==> opener == s[start] && (opener == '{' || opener == '[')
    ensures start >= 0 ==> forall k | 0 <= k < start :: s[k] != '{' && s[k] != '['
  {
    for i := 0 to |s|
      invariant forall k | 0 <= k < i :: s[k] != '{' && s[k] != '['
    {
      if s[i] == '{' || s[i] == '[' {
        return i, s[i];
      }
    }
    return -1, '\0';
  }

  method FindMatchingClose(s: string, start: nat, opener: char, closer: char) returns (block: string)
    requires start <= |s| && ((opener == '{' && closer == '}') || (opener == '[' && closer == ']'))
    ensures block == "" <==> forall e: nat :: !Ends(s, start, opener, closer, e)
    ensures block != "" ==>
              FirstEnd(s, start, opener, closer, start + |block|) && start + |block| <= |s| && block == s[start..start + |block|]
  {
    hide ModeOf, Depth, Ends;
    var depth := 0;
    var inString, escaped := false, false;
    assert s[start..start] == [];
    Nothing(opener, closer);
    NoEndYet(s, start, opener, closer);
    for i := start to |s|
      invariant Mode(inString, escaped) == ModeOf(s[start..i])
      invariant depth == Depth(s[start..i], opener, closer)
      invariant escaped ==> inString
      invariant forall d: nat | start < d <= i :: !Ends(s, start, opener, closer, d)
    {
      EndsHere(s, start, opener, closer, i);
      if escaped {
        escaped := false;
        continue;
      }
      var ch := s[i];
      if ch == '\\' && inString {
        escaped := true;
        continue;
      }
      if ch == '"' {
        inString := !inString;
        continue;
      }
      if inString {
        continue;
      }
      if ch == opener {
        depth := depth + 1;
      } else if ch == closer {
        depth := depth - 1;
        if depth == 0 {
          return s[start..i + 1];
        }
      }
    }
    return "";
  }

  /** The block the extractor is after: from the first opener to the first end. */
  ghost predicate IsExtract(s: string, block: string) {
    if exists b: nat, e: nat :: Extractable(s, b, e) then exists b: nat, e: nat :: Extractable(s, b, e) && block == s[b..e]
    else block == ""
  }

  ghost predicate Extractable(s: string, b: nat, e: nat) {
    && b < e <= |s| && IsOpener(s[b]) && (forall k | 0 <= k < b :: !IsOpener(s[k]))
    && FirstEnd(s, b, s[b], CloserOf(s[b]), e)
  }

  method ExtractJSON(s: string) returns (block: string)
    ensures IsExtract(s, block)
    ensures block != "" <==> exists b: nat, e: nat :: Extractable(s, b, e)
    ensures block != "" ==>
              || (block[0] == '{' && block[|block| - 1] == '}')
              || (block[0] == '[' && block[|block| - 1] == ']')
  {
    var start, opener := FindJSONStart(s);
    if start == -1 {
      return "";
    }
    var closer := '}';
    if opener == '[' {
      closer := ']';
    }
    forall b: nat, e: nat | Extractable(s, b, e)
      ensures b == start && Ends(s, start, opener, closer, e)
    {
    }
    block := FindMatchingClose(s, start, opener, closer);
    if block != "" {
      assert Extractable(s, start, start + |block|);
    }
  }

  method SanitizeJSONStrings(s: string) returns (buf: string)
    ensures buf == Sanitized(s)
    ensures Decoded(buf) == Decoded(s)
    ensures forall k | 0 <= k < |buf| && Reading(buf[..k]) == Inside :: buf[k] != '\n' && buf[k] != '\r' && buf[k] != '\t'
  {
    buf := [];
    var inString, escaped := false, false;
    for i := 0 to |s|
      invariant Mode(inString, escaped) == ModeOf(s[..i])
      invariant buf == Sanitized(s[..i])
    {
      assert s[..i + 1][..i] == s[..i];
      var ch := s[i];
      var appendCh := true;
      if escaped {
        escaped := false;
      } else if ch == '\\' && inString {
        escaped := true;
      } else if ch == '"' {
        inString := !inString;
      } else if inString && ch == '\n' {
        buf := buf + ['\\', 'n'];
        appendCh := false;
      } else if inString && ch == '\r' {
        buf := buf + ['\\', 'r'];
        appendCh := false;
      } else if inString && ch == '\t' {
        buf := buf + ['\\', 't'];
        appendCh := false;
      }
      if appendCh {
        buf := buf + [ch];
      }
    }
    assert s[..|s|] == s;
    SanitizingKeepsMeaning(s);
    SanitizedIsClean(s);
  }

  // ---- sanitising ----

  /** The repair changes nothing that is read: every string has the same characters, and everything else is where it was. */
  lemma {:induction false} SanitizingKeepsMeaning(s: string)
    ensures Decoded(Sanitized(s)) == Decoded(s) && Reading(Sanitized(s)) == Reading(s)
  {
    hide ModeOf, Depth, Sanitized, Decoded, Reading;
    if s == [] {
      Nothing('{', '}');
    } else {
      var p, ch := s[..|s| - 1], s[|s| - 1];
      var t := Sanitized(p);
      assert s == p + [ch];
      SanitizingKeepsMeaning(p);
      ModeIsReading(p);
      Append(p, ch, '{', '}');
      DecodedAppend(p, ch);
      if Raw(ModeOf(p), ch) {
        DecodedAppend(t, '\\');
        DecodedAppend(t + ['\\'], EscapeLetter(ch));
        assert t + ['\\', EscapeLetter(ch)] == t + ['\\'] + [EscapeLetter(ch)];
      } else {
        DecodedAppend(t, ch);
      }
    }
  }

  /** What replaces a character moves the scanners as the character does, and is itself left alone. */
  lemma ImageScan(t: string, ch: char, o: char, c: char)
    ensures ModeOf(t + Image(ModeOf(t), ch)) == NextMode(ModeOf(t), ch)
    ensures Depth(t + Image(ModeOf(t), ch), o, c) == Depth(t, o, c) + Delta(ModeOf(t), ch, o, c)
    ensures Sanitized(t + Image(ModeOf(t), ch)) == Sanitized(t) + Image(ModeOf(t), ch)
  {
    hide ModeOf, Depth, Sanitized;
    if Raw(ModeOf(t), ch) {
      Append(t, '\\', o, c);
      Append(t + ['\\'], EscapeLetter(ch), o, c);
      assert t + ['\\', EscapeLetter(ch)] == t + ['\\'] + [EscapeLetter(ch)];
    } else {
      Append(t, ch, o, c);
    }
  }

  /** The scanners see the repaired text as they see the original. */
  lemma {:induction false} SanitizingKeepsScan(s: string, opener: char, closer: char)
    ensures ModeOf(Sanitized(s)) == ModeOf(s)
    ensures Depth(Sanitized(s), opener, closer) == Depth(s, opener, closer)
  {
    hide ModeOf, Depth, Sanitized, Image, NextMode, Delta;
    Nothing(opener, closer);
    if s != [] {
      var p, ch := s[..|s| - 1], s[|s| - 1];
      assert s == p + [ch];
      SanitizingKeepsScan(p, opener, closer);
      Append(p, ch, opener, closer);
      ImageScan(Sanitized(p), ch, opener, closer);
    }
  }

  /** Sanitising twice is sanitising once. */
  lemma {:induction false} SanitizingIsIdempotent(s: string)
    ensures Sanitized(Sanitized(s)) == Sanitized(s)
  {
    hide ModeOf, Depth, Sanitized, Image;
    Nothing('{', '}');
    if s != [] {
      var p, ch := s[..|s| - 1], s[|s| - 1];
      assert s == p + [ch];
      SanitizingIsIdempotent(p);
      SanitizingKeepsScan(p, '{', '}');
      Append(p, ch, '{', '}');
      ImageScan(Sanitized(p), ch, '{', '}');
    }
  }

  lemma CleanAppend(p: string, ch: char)
    ensures Clean(p + [ch]) <==> Clean(p) && !Raw(ModeOf(p), ch)
  {
    ModeIsReading(p);
    hide ModeOf, Reading;
    var s := p + [ch];
    assert s[..|p|] == p && s[|p|] == ch;
    assert forall k | 0 <= k < |p| :: s[..k] == p[..k] && s[k] == p[k];
  }

  lemma SameTail(a: string, b: string, ch: char)
    ensures a + [ch] == b + [ch] <==> a == b
  {
    if a + [ch] == b + [ch] {
      assert a == (a + [ch])[..|a|] && b == (b + [ch])[..|b|];
    }
  }

  /** A text is left as it is exactly if it is clean. */
  lemma {:induction false} CleanIffUnchanged(s: string)
    ensures |s| <= |Sanitized(s)|
    ensures Clean(s) <==> Sanitized(s) == s
  {
    hide ModeOf, Sanitized, Raw, Reading;
    Nothing('{', '}');
    if s != [] {
      hide Clean;
      var p, ch := s[..|s| - 1], s[|s| - 1];
      assert s == p + [ch];
      CleanIffUnchanged(p);
      CleanAppend(p, ch);
      Append(p, ch, '{', '}');
      if !Raw(ModeOf(p), ch) {
        SameTail(Sanitized(p), p, ch);
      }
    }
  }

  /** The result has no raw newline, carriage return or tab at an unescaped position inside a string. */
  lemma SanitizedIsClean(s: string)
    ensures Clean(Sanitized(s))
  {
    SanitizingIsIdempotent(s);
    CleanIffUnchanged(Sanitized(s));
  }

  /** Right after a backslash a raw control character stays, although section 7 of RFC 8259 forbids it there as well. */
  lemma EscapedControlStays(p: string, ch: char)
    requires Reading(p) == Inside && (ch == '\n' || ch == '\r' || ch == '\t')
    ensures Sanitized(p + ['\\'] + [ch]) == Sanitized(p) + ['\\'] + [ch]
    ensures Reading(p + ['\\']) == AfterBackslash
  {
    ModeIsReading(p);
    DecodedAppend(p, '\\');
    hide ModeOf, Sanitized, Reading;
    Append(p, '\\', '{', '}');
    Append(p + ['\\'], ch, '{', '}');
  }

  /** No newline, carriage return or tab anywhere inside a string, whether the position is escaped or not. */
  ghost predicate NoControlInString(t: string) {
    forall k | 0 <= k < |t| && Reading(t[..k]) != Text :: t[k] != '\n' && t[k] != '\r' && t[k] != '\t'
  }

  /** No backslash inside a string is followed by a raw control character. */
  ghost predicate NoEscapedControl(s: string) {
    forall k | 0 <= k < |s| && Reading(s[..k]) == AfterBackslash :: s[k] != '\n' && s[k] != '\r' && s[k] != '\t'
  }

  lemma StrictAppend(p: string, ch: char)
    ensures NoControlInString(p + [ch]) <==> NoControlInString(p) && !(ModeOf(p).inString && IsControl(ch))
    ensures NoEscapedControl(p + [ch]) <==> NoEscapedControl(p) && !(ModeOf(p).escaped && IsControl(ch))
  {
    ModeIsReading(p);
    hide ModeOf, Reading;
    var s := p + [ch];
    assert s[..|p|] == p && s[|p|] == ch;
    assert forall k | 0 <= k < |p| :: s[..k] == p[..k] && s[k] == p[k];
  }

  lemma {:induction false} EscapedInString(s: string)
    ensures ModeOf(s).escaped ==> ModeOf(s).inString
  {
    if s != [] {
      EscapedInString(s[..|s| - 1]);
    }
  }

  /**
   The repaired text has none of the three inside a string if and only if no backslash in
   a string of the original is followed by one.
   */
  lemma {:induction false} StrictlyCleanExactly(s: string)
    ensures NoControlInString(Sanitized(s)) <==> NoEscapedControl(s)
  {
    hide ModeOf, Sanitized;
    Nothing('{', '}');
    if s != [] {
      hide NoControlInString, NoEscapedControl;
      var p, ch := s[..|s| - 1], s[|s| - 1];
      var t := Sanitized(p);
      assert s == p + [ch];
      StrictlyCleanExactly(p);
      SanitizingKeepsScan(p, '{', '}');
      EscapedInString(p);
      StrictAppend(p, ch);
      Append(p, ch, '{', '}');
      if Raw(ModeOf(p), ch) {
        StrictAppend(t, '\\');
        StrictAppend(t + ['\\'], EscapeLetter(ch));
        assert t + ['\\', EscapeLetter(ch)] == t + ['\\'] + [EscapeLetter(ch)];
      } else {
        StrictAppend(t, ch);
      }
    }
  }

  /** Section 7 of RFC 8259: no character below the space anywhere inside a string. */
  ghost predicate MeetsRfc(t: string) {
    forall k | 0 <= k < |t| && Reading(t[..k]) != Text :: t[k] >= ' '
  }

  /** Every such character of the text is one the scanner replaces. */
  ghost predicate Repairable(s: string) {
    forall k | 0 <= k < |s| && Reading(s[..k]) != Text && s[k] < ' ' ::
      Reading(s[..k]) == Inside && (s[k] == '\n' || s[k] == '\r' || s[k] == '\t')
  }

  lemma RfcAppend(p: string, ch: char)
    ensures MeetsRfc(p + [ch]) <==> MeetsRfc(p) && !(ModeOf(p).inString && ch < ' ')
    ensures Repairable(p + [ch]) <==> Repairable(p) && (ModeOf(p).inString && ch < ' ' ==> Raw(ModeOf(p), ch))
  {
    ModeIsReading(p);
    hide ModeOf, Reading;
    var s := p + [ch];
    assert s[..|p|] == p && s[|p|] == ch;
    assert forall k | 0 <= k < |p| :: s[..k] == p[..k] && s[k] == p[k];
  }

  /**
   The repaired text meets the standard's rule for control characters if and only if the
   original has none but raw newlines, carriage returns and tabs at unescaped positions.
   */
  lemma {:induction false} MeetsRfcExactly(s: string)
    ensures MeetsRfc(Sanitized(s)) <==> Repairable(s)
  {
    hide ModeOf, Sanitized;
    Nothing('{', '}');
    if s != [] {
      hide MeetsRfc, Repairable;
      var p, ch := s[..|s| - 1], s[|s| - 1];
      var t := Sanitized(p);
      assert s == p + [ch];
      MeetsRfcExactly(p);
      SanitizingKeepsScan(p, '{', '}');
      RfcAppend(p, ch);
      Append(p, ch, '{', '}');
      if Raw(ModeOf(p), ch) {
        RfcAppend(t, '\\');
        RfcAppend(t + ['\\'], EscapeLetter(ch));
        assert t + ['\\', EscapeLetter(ch)] == t + ['\\'] + [EscapeLetter(ch)];
      } else {
        RfcAppend(t, ch);
      }
    }
  }

  // ---- blocks ----

  /** From an opener, the first end is the first place where the depth is zero again: the shortest block. */
  lemma ShortestBlock(s: string, b: nat, e: nat)
    requires b < e <= |s| && IsOpener(s[b])
    ensures FirstEnd(s, b, s[b], CloserOf(s[b]), e) <==>
            Depth(s[b..e], s[b], CloserOf(s[b])) == 0
            && forall d: nat | b < d < e :: Depth(s[b..d], s[b], CloserOf(s[b])) > 0
  {
    var o, c := s[b], CloserOf(s[b]);
    forall d: nat | b < d <= e && forall x: nat | b < x < d :: Depth(s[b..x], o, c) > 0
      ensures Depth(s[b..d], o, c) >= 0
      ensures Depth(s[b..d], o, c) == 0 <==> Ends(s, b, o, c, d)
    {
      DepthStep(s, b, d);
    }
    if FirstEnd(s, b, o, c, e) {
      PositiveBefore(s, b, e, e);
    }
  }

  lemma DepthStep(s: string, b: nat, d: nat)
    requires b < d <= |s| && IsOpener(s[b])
    requires d > b + 1 ==> Depth(s[b..d - 1], s[b], CloserOf(s[b])) > 0
    ensures Depth(s[b..d], s[b], CloserOf(s[b])) >= 0
    ensures Depth(s[b..d], s[b], CloserOf(s[b])) == 0 <==> Ends(s, b, s[b], CloserOf(s[b]), d)
  {
    var o, c := s[b], CloserOf(s[b]);
    assert s[b..d] == s[b..d - 1] + [s[d - 1]];
    Append(s[b..d - 1], s[d - 1], o, c);
    if d == b + 1 {
      assert s[b..b] == [];
    }
  }

  lemma {:induction false} PositiveBefore(s: string, b: nat, d: nat, e: nat)
    requires b < d <= e <= |s| && IsOpener(s[b]) && FirstEnd(s, b, s[b], CloserOf(s[b]), e)
    ensures forall x: nat | b < x < d :: Depth(s[b..x], s[b], CloserOf(s[b])) > 0
  {
    if d > b + 1 {
      PositiveBefore(s, b, d - 1, e);
      DepthStep(s, b, d - 1);
    }
  }

  /** The whole of `t` is what the extractor takes out of `t`. */
  ghost predicate IsBlock(t: string) {
    t != "" && Extractable(t, 0, |t|)
  }

  predicate IsBracket(ch: char) {
    IsOpener(ch) || ch == '}' || ch == ']'
  }

  lemma {:induction false} InsertKeepsScan(p: string, ch: char, q: string, o: char, c: char)
    requires ModeOf(p) == OUTSIDE && IsBracket(ch) && ch != o && ch != c
    ensures ModeOf(p + [ch] + q) == ModeOf(p + q) && Depth(p + [ch] + q, o, c) == Depth(p + q, o, c)
  {
    hide ModeOf, Depth, Sanitized;
    if q == [] {
      assert p + [ch] + q == p + [ch] && p + q == p;
      Append(p, ch, o, c);
    } else {
      var r, x := q[..|q| - 1], q[|q| - 1];
      assert q == r + [x];
      InsertKeepsScan(p, ch, r, o, c);
      assert p + [ch] + q == p + [ch] + r + [x] && p + q == p + r + [x];
      Append(p + [ch] + r, x, o, c);
      Append(p + r, x, o, c);
    }
  }

  /** Brackets of the other kind are not counted: inserted anywhere outside strings they leave a block a block, balanced or not. */
  lemma OtherBracketsIgnored(p: string, ch: char, q: string)
    requires p != "" && q != "" && IsBlock(p + q) && ModeOf(p) == OUTSIDE
    requires IsBracket(ch) && ch != p[0] && ch != CloserOf(p[0])
    ensures IsBlock(p + [ch] + q)
  {
    hide ModeOf, Depth, Sanitized, FirstEnd;
    var t, u := p + q, p + [ch] + q;
    var o, c := t[0], CloserOf(t[0]);
    assert u[0] == o && t[0..|t|] == t && u[0..|u|] == u;
    ShortestBlock(t, 0, |t|);
    InsertKeepsScan(p, ch, q, o, c);
    forall d: nat | 0 < d < |u|
      ensures Depth(u[0..d], o, c) > 0
    {
      if d <= |p| {
        assert u[0..d] == t[0..d];
      } else {
        var r := q[..d - |p| - 1];
        InsertKeepsScan(p, ch, r, o, c);
        assert u[0..d] == p + [ch] + r && t[0..|p| + |r|] == p + r;
      }
    }
    ShortestBlock(u, 0, |u|);
  }

  /** A block taken out of a longer text is a block by itself. */
  lemma ExtractIsBlock(s: string, b: nat, e: nat)
    requires Extractable(s, b, e)
    ensures IsBlock(s[b..e])
  {
    var t := s[b..e];
    ShortestBlock(s, b, e);
    assert t[0..|t|] == t;
    forall d: nat | 0 < d < |t|
      ensures Depth(t[0..d], t[0], CloserOf(t[0])) > 0
    {
      assert t[0..d] == s[b..b + d];
    }
    ShortestBlock(t, 0, |t|);
  }

  /** Sanitising a block gives a block: extracting again returns it unchanged. */
  lemma SanitizedBlockIsBlock(t: string)
    requires IsBlock(t)
    ensures IsBlock(Sanitized(t))
  {
    var o := t[0];
    var c := CloserOf(o);
    var u := Sanitized(t);
    ShortestBlock(t, 0, |t|);
    assert t[0..|t|] == t;
    SanitizingKeepsScan(t, o, c);
    FirstStays(t);
    forall d: nat | 0 < d < |u|
      ensures Depth(u[0..d], o, c) > 0
    {
      var k := PrefixOfImage(t, d, o, c);
      assert t[0..k] == t[..k] && u[0..d] == u[..d];
    }
    assert u[0..|u|] == u;
    ShortestBlock(u, 0, |u|);
  }

  lemma {:induction false} FirstStays(t: string)
    requires t != "" && IsOpener(t[0])
    ensures Sanitized(t) != "" && Sanitized(t)[0] == t[0]
  {
    if |t| == 1 {
      assert t[..0] == [];
    } else {
      FirstStays(t[..|t| - 1]);
    }
  }

  lemma OneOpener(t: string)
    requires |t| == 1
    ensures |Sanitized(t)| == 1
  {
    assert t[..0] == [];
  }

  /** Every proper prefix of the repaired text has the depth of some proper, non-empty prefix of the original. */
  lemma {:induction false} PrefixOfImage(t: string, d: nat, o: char, c: char) returns (k: nat)
    requires t != "" && IsOpener(t[0]) && 0 < d < |Sanitized(t)|
    ensures 0 < k < |t| && Depth(Sanitized(t)[..d], o, c) == Depth(t[..k], o, c)
  {
    hide ModeOf, Depth, Sanitized;
    var p, ch := t[..|t| - 1], t[|t| - 1];
    var v := Sanitized(p);
    assert t == p + [ch];
    Append(p, ch, o, c);
    assert p != [] by {
      if p == [] {
        OneOpener(t);
        assert false;
      }
    }
    if d < |v| {
      k := PrefixOfImage(p, d, o, c);
      assert Sanitized(t)[..d] == v[..d] && t[..k] == p[..k];
    } else {
      k := |p|;
      assert t[..k] == p;
      SanitizingKeepsScan(p, o, c);
      if d == |v| {
        assert Sanitized(t)[..d] == v;
      } else {
        assert Sanitized(t)[..d] == v + ['\\'];
        Append(v, '\\', o, c);
      }
    }
  }

  /** Extraction is a function of the text. */
  lemma ExtractIsUnique(s: string, b: nat, e: nat, b': nat, e': nat)
    requires Extractable(s, b, e) && Extractable(s, b', e')
    ensures b == b' && e == e'
  {
    hide Ends;
    assert b == b';
    assert !(e < e') && !(e' < e);
  }

  /** Whatever is extracted, repaired and extracted again is the repaired block. */
  lemma ReExtraction(s: string, b: nat, e: nat)
    requires Extractable(s, b, e)
    ensures var repaired := Sanitized(s[b..e]);
            Clean(repaired) && forall again :: IsExtract(repaired, again) <==> again == repaired
  {
    hide FirstEnd, Sanitized, Clean;
    var block := s[b..e];
    ExtractIsBlock(s, b, e);
    SanitizedBlockIsBlock(block);
    SanitizedIsClean(block);
    var u := Sanitized(block);
    assert Extractable(u, 0, |u|) && u[0..|u|] == u;
    forall again
      ensures IsExtract(u, again) <==> again == u
    {
      if IsExtract(u, again) {
        var b': nat, e': nat :| Extractable(u, b', e') && again == u[b'..e'];
        ExtractIsUnique(u, 0, |u|, b', e');
      }
    }
  }
}
