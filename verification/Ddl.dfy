/**
  The target of a CREATE TABLE statement is rewritten to the staging table
  (src/airgap_sync/destination/ddl.py).
 */
module Ddl {
  import opened Wrappers

  datatype SchemaError = INVALID_SCHEMA_DDL | SCHEMA_TABLE_MISMATCH | UNSUPPORTED_SCHEMA_FEATURE

  predicate IsSpace(c: char) {
    c in {' ', '\t', '\n', '\r', 11 as char, 12 as char}
  }

  // Where the spaces that start at i end.
  function SpacesEnd(s: string, i: nat): (n: nat)
    requires i <= |s|
    ensures i <= n <= |s| && (forall k :: i <= k < n ==> IsSpace(s[k])) && (n < |s| ==> !IsSpace(s[n]))
    decreases |s| - i
  {
    if i == |s| || !IsSpace(s[i]) then i else SpacesEnd(s, i + 1)
  }

  function Upper(c: char): char {
    if 'a' <= c <= 'z' then c - 32 as char else c
  }

  predicate HasWord(s: string, i: nat, word: string) {
    i + |word| <= |s| && forall k :: 0 <= k < |word| ==> Upper(s[i + k]) == word[k]
  }

  // The end of CREATE TABLE and the spaces around it, in any case.
  function CreateEnd(s: string): (r: Option<nat>)
    ensures r.Some? ==> r.value <= |s| && (r.value < |s| ==> !IsSpace(s[r.value]))
  {
    var create := SpacesEnd(s, 0);
    if !HasWord(s, create, "CREATE") then None
    else
      var table := SpacesEnd(s, create + 6);
      if table == create + 6 || !HasWord(s, table, "TABLE") then None
      else
        var end := SpacesEnd(s, table + 5);
        if end == table + 5 then None else Some(end)
  }

  // --- Identifiers ---

  datatype Identifier = Identifier(name: string, end: nat)

  predicate IsUnquoted(c: char) {
    'A' <= c <= 'Z' || 'a' <= c <= 'z' || '0' <= c <= '9' || c == '_' || c == '$' || 0x80 <= c as int <= 0xffff
  }

  function UnquotedEnd(s: string, i: nat): (n: nat)
    requires i <= |s|
    ensures i <= n <= |s|
    decreases |s| - i
  {
    if i == |s| || !IsUnquoted(s[i]) then i else UnquotedEnd(s, i + 1)
  }

  // The rest of a quoted name: two backquotes stand for one, a single one ends it.
  function QuotedName(s: string, i: nat): (r: Option<Identifier>)
    requires i <= |s|
    ensures r.Some? ==> i < r.value.end <= |s|
    decreases |s| - i
  {
    if i == |s| then None
    else if s[i] != '`' then Cons(s[i], QuotedName(s, i + 1))
    else if i + 1 < |s| && s[i + 1] == '`' then Cons('`', QuotedName(s, i + 2))
    else Some(Identifier("", i + 1))
  }

  function Cons(c: char, r: Option<Identifier>): Option<Identifier> {
    if r.None? then None else Some(Identifier([c] + r.value.name, r.value.end))
  }

  function IdentifierAt(s: string, start: nat): (r: Option<Identifier>)
    ensures r.Some? ==> start < r.value.end <= |s|
  {
    if start >= |s| then None
    else if s[start] == '`' then QuotedName(s, start + 1)
    else
      var end := UnquotedEnd(s, start);
      if end == start then None else Some(Identifier(s[start..end], end))
  }

  method ScanIdentifier(s: string, start: nat) returns (r: Option<Identifier>)
    ensures r == IdentifierAt(s, start)
  {
    if start >= |s| { return None; }
    if s[start] == '`' {
      var chars, pos := "", start + 1;
      PrefixedEmpty(QuotedName(s, pos));
      while pos < |s|
        invariant start < pos <= |s|
        invariant QuotedName(s, start + 1) == Prefixed(chars, QuotedName(s, pos))
      {
        if s[pos] == '`' {
          if pos + 1 < |s| && s[pos + 1] == '`' {
            PrefixedCons(chars, '`', QuotedName(s, pos + 2));
            chars, pos := chars + "`", pos + 2;
            continue;
          }
          assert chars + "" == chars;
          return Some(Identifier(chars, pos + 1));
        }
        PrefixedCons(chars, s[pos], QuotedName(s, pos + 1));
        chars, pos := chars + [s[pos]], pos + 1;
      }
      return None;
    }
    var end := start;
    while end < |s| && IsUnquoted(s[end])
      invariant start <= end <= |s| && UnquotedEnd(s, start) == UnquotedEnd(s, end)
    {
      end := end + 1;
    }
    r := if end == start then None else Some(Identifier(s[start..end], end));
  }

  function Prefixed(chars: string, r: Option<Identifier>): Option<Identifier> {
    if r.None? then None else Some(Identifier(chars + r.value.name, r.value.end))
  }

  lemma PrefixedEmpty(r: Option<Identifier>)
    ensures Prefixed("", r) == r
  {
    if r.Some? {
      assert "" + r.value.name == r.value.name;
    }
  }

  lemma PrefixedCons(chars: string, c: char, r: Option<Identifier>)
    ensures Prefixed(chars, Cons(c, r)) == Prefixed(chars + [c], r)
  {
    if r.Some? {
      assert chars + ([c] + r.value.name) == chars + [c] + r.value.name;
    }
  }

  // --- Structure without literals and comments ---

  function LineEnd(s: string, i: nat): (n: nat)
    requires i <= |s|
    ensures i <= n <= |s| && (n == |s| || n > i)
    decreases |s| - i
  {
    if i == |s| then i else if s[i] == '\n' then i + 1 else LineEnd(s, i + 1)
  }

  function BlockEnd(s: string, i: nat): (r: Option<nat>)
    ensures r.Some? ==> i + 2 <= r.value <= |s|
    decreases |s| - i
  {
    if i + 1 >= |s| then None else if s[i] == '*' && s[i + 1] == '/' then Some(i + 2) else BlockEnd(s, i + 1)
  }

  predicate StartsLine(s: string, i: nat)
    requires i < |s|
  {
    s[i] == '#' || (i + 1 < |s| && s[i] == '-' && s[i + 1] == '-')
  }

  predicate StartsBlock(s: string, i: nat)
    requires i < |s|
  {
    i + 1 < |s| && s[i] == '/' && s[i + 1] == '*'
  }

  predicate IsQuote(c: char) {
    c in {'\'', '"', '`'}
  }

  // The end of a literal that was opened with this quote; None if it is not closed.
  function LiteralEnd(s: string, i: nat, quote: char): (r: Option<nat>)
    ensures r.Some? ==> i < r.value <= |s|
    decreases |s| - i
  {
    if i >= |s| then None
    else if s[i] == quote then
      if i + 1 < |s| && s[i + 1] == quote then LiteralEnd(s, i + 2, quote) else Some(i + 1)
    else if s[i] == '\\' && quote in {'\'', '"'} then LiteralEnd(s, i + 2, quote)
    else LiteralEnd(s, i + 1, quote)
  }

  // The end of the literal or comment that starts at i, or the next position; None if it is not closed.
  function PieceEnd(s: string, i: nat): (r: Option<nat>)
    requires i < |s|
    ensures r.Some? ==> i < r.value <= |s|
  {
    if StartsLine(s, i) then Some(LineEnd(s, i))
    else if StartsBlock(s, i) then BlockEnd(s, i + 2)
    else if IsQuote(s[i]) then LiteralEnd(s, i + 1, s[i])
    else Some(i + 1)
  }

  predicate IsCode(s: string, i: nat)
    requires i < |s|
  {
    !StartsLine(s, i) && !StartsBlock(s, i) && !IsQuote(s[i])
  }

  // Code characters as they are, a space for every literal and comment.
  function CodeText(s: string, i: nat): Option<string>
    requires i <= |s|
    decreases |s| - i
  {
    if i == |s| then Some("")
    else
      var end := PieceEnd(s, i);
      if end.None? then None
      else
        var rest := CodeText(s, end.value);
        if rest.None? then None else Some([if IsCode(s, i) then s[i] else ' '] + rest.value)
  }

  // What the loop of the code still has to do when it is inside a literal.
  function CodeIn(s: string, i: nat, quote: Option<char>): Option<string>
  {
    if quote.Some? then
      var end := LiteralEnd(s, i, quote.value);
      if end.None? then None else CodeText(s, end.value)
    else if i <= |s| then CodeText(s, i) else Some("")
  }

  function Onto(cleaned: string, rest: Option<string>): Option<string> {
    if rest.None? then None else Some(cleaned + rest.value)
  }

  method ScanCode(s: string) returns (r: Option<string>)
    ensures r == CodeText(s, 0)
  {
    var cleaned, pos, quote := "", 0, None;
    OntoEmpty(CodeText(s, 0));
    while pos < |s|
      invariant CodeText(s, 0) == Onto(cleaned, CodeIn(s, pos, quote))
      invariant quote.None? ==> pos <= |s|
      decreases |s| - pos
    {
      var c := s[pos];
      if quote.Some? {
        if c == quote.value {
          if pos + 1 < |s| && s[pos + 1] == quote.value {
            pos := pos + 2;
            continue;
          }
          quote := None;
        } else if c == '\\' && quote.value in {'\'', '"'} {
          pos := pos + 2;
          continue;
        }
        pos := pos + 1;
        continue;
      }
      if StartsLine(s, pos) {
        var end := FindLineEnd(s, pos);
        OntoCons(cleaned, ' ', CodeText(s, end));
        pos, cleaned := end, cleaned + " ";
        continue;
      }
      if StartsBlock(s, pos) {
        var end := FindBlockEnd(s, pos + 2);
        if end.None? { return None; }
        OntoCons(cleaned, ' ', CodeText(s, end.value));
        pos, cleaned := end.value, cleaned + " ";
        continue;
      }
      OntoCons(cleaned, if IsQuote(c) then ' ' else c, CodeIn(s, pos + 1, if IsQuote(c) then Some(c) else None));
      if IsQuote(c) {
        quote, cleaned := Some(c), cleaned + " ";
      } else {
        cleaned := cleaned + [c];
      }
      pos := pos + 1;
    }
    assert cleaned + "" == cleaned;
    r := if quote.Some? then None else Some(cleaned);
  }

  lemma OntoEmpty(rest: Option<string>)
    ensures Onto("", rest) == rest
  {
    if rest.Some? {
      assert "" + rest.value == rest.value;
    }
  }

  lemma OntoCons(cleaned: string, c: char, rest: Option<string>)
    ensures Onto(cleaned, if rest.None? then None else Some([c] + rest.value)) == Onto(cleaned + [c], rest)
  {
    if rest.Some? {
      assert cleaned + ([c] + rest.value) == cleaned + [c] + rest.value;
    }
  }

  method FindLineEnd(s: string, i: nat) returns (n: nat)
    requires i <= |s|
    ensures n == LineEnd(s, i)
  {
    n := i;
    while n < |s| && s[n] != '\n'
      invariant i <= n <= |s| && LineEnd(s, i) == LineEnd(s, n)
    {
      n := n + 1;
    }
    if n < |s| { n := n + 1; }
  }

  method FindBlockEnd(s: string, i: nat) returns (r: Option<nat>)
    ensures r == BlockEnd(s, i)
  {
    var n := i;
    while n + 1 < |s| && !(s[n] == '*' && s[n + 1] == '/')
      invariant i <= n && BlockEnd(s, i) == BlockEnd(s, n)
    {
      n := n + 1;
    }
    r := if n + 1 < |s| then Some(n + 2) else None;
  }

  // --- What the code text means: an independent reading of the statement as pieces ---

  // A comment to the end of its line.
  predicate IsLineComment(s: string, i: nat, end: nat)
    requires i < end <= |s|
  {
    StartsLine(s, i) && (forall k :: i <= k < end - 1 ==> s[k] != '\n') && (s[end - 1] == '\n' || end == |s|)
  }

  // A comment to the first closing mark after its opening mark.
  predicate IsBlockComment(s: string, i: nat, end: nat)
    requires i < end <= |s|
  {
    && StartsBlock(s, i) && i + 4 <= end && s[end - 2] == '*' && s[end - 1] == '/'
    && forall k :: i + 2 <= k < end - 2 ==> !(s[k] == '*' && s[k + 1] == '/')
  }

  // Doubled quotes and, where the quote allows them, escaped characters; then the closing quote.
  predicate IsBody(s: string, i: nat, end: nat, quote: char)
    requires end <= |s|
    decreases end - i
  {
    if i >= end then false
    else if s[i] == quote then i + 1 == end || (s[i + 1] == quote && IsBody(s, i + 2, end, quote))
    else if s[i] == '\\' && quote in {'\'', '"'} then IsBody(s, i + 2, end, quote)
    else IsBody(s, i + 1, end, quote)
  }

  predicate IsLiteral(s: string, i: nat, end: nat)
    requires i < end <= |s|
  {
    IsQuote(s[i]) && IsBody(s, i + 1, end, s[i]) && (end < |s| ==> s[end] != s[i])
  }

  predicate IsPiece(s: string, i: nat, end: nat)
    requires i < end <= |s|
  {
    (IsCode(s, i) && end == i + 1) || IsLineComment(s, i, end) || IsBlockComment(s, i, end) || IsLiteral(s, i, end)
  }

  // From i on the statement consists of pieces with these ends.
  predicate Reads(s: string, i: nat, ends: seq<nat>)
    requires i <= |s|
    decreases |ends|
  {
    if ends == [] then i == |s| else i < ends[0] <= |s| && IsPiece(s, i, ends[0]) && Reads(s, ends[0], ends[1..])
  }

  function Rendered(s: string, i: nat, ends: seq<nat>): string
    requires i <= |s| && Reads(s, i, ends)
    decreases |ends|
  {
    if ends == [] then "" else [if IsCode(s, i) then s[i] else ' '] + Rendered(s, ends[0], ends[1..])
  }

  lemma {:induction false} LineEndIsComment(s: string, i: nat, end: nat)
    requires i < end <= |s|
    ensures LineEnd(s, i) == end <==> (forall k :: i <= k < end - 1 ==> s[k] != '\n') && (s[end - 1] == '\n' || end == |s|)
    decreases |s| - i
  {
    if s[i] != '\n' && i + 1 < end {
      LineEndIsComment(s, i + 1, end);
    }
  }

  lemma {:induction false} BlockEndIsComment(s: string, i: nat, end: nat)
    requires i + 2 <= end <= |s|
    ensures BlockEnd(s, i) == Some(end) <==>
              s[end - 2] == '*' && s[end - 1] == '/' && forall k :: i <= k < end - 2 ==> !(s[k] == '*' && s[k + 1] == '/')
    decreases |s| - i
  {
    if !(s[i] == '*' && s[i + 1] == '/') && i + 3 <= end {
      BlockEndIsComment(s, i + 1, end);
    }
  }

  lemma {:induction false} LiteralEndIsBody(s: string, i: nat, end: nat, quote: char)
    requires end <= |s|
    ensures LiteralEnd(s, i, quote) == Some(end) <==> IsBody(s, i, end, quote) && (end < |s| ==> s[end] != quote)
    decreases |s| - i
  {
    if i < |s| {
      LiteralEndIsBody(s, i + 1, end, quote);
      LiteralEndIsBody(s, i + 2, end, quote);
    }
  }

  // The scanner finds exactly the pieces there are.
  lemma PieceEndIsPiece(s: string, i: nat, end: nat)
    requires i < end <= |s|
    ensures PieceEnd(s, i) == Some(end) <==> IsPiece(s, i, end)
  {
    if StartsLine(s, i) {
      LineEndIsComment(s, i, end);
    } else if StartsBlock(s, i) {
      if i + 4 <= end {
        BlockEndIsComment(s, i + 2, end);
      }
    } else if IsQuote(s[i]) {
      LiteralEndIsBody(s, i + 1, end, s[i]);
    }
  }

  lemma {:induction false} ReadingIsCodeText(s: string, i: nat, ends: seq<nat>)
    requires i <= |s| && Reads(s, i, ends)
    ensures CodeText(s, i) == Some(Rendered(s, i, ends))
    decreases |ends|
  {
    if ends != [] {
      PieceEndIsPiece(s, i, ends[0]);
      ReadingIsCodeText(s, ends[0], ends[1..]);
    }
  }

  lemma {:induction false} CodeTextIsReading(s: string, i: nat) returns (ends: seq<nat>)
    requires i <= |s| && CodeText(s, i).Some?
    ensures Reads(s, i, ends)
    decreases |s| - i
  {
    ends := [];
    if i < |s| {
      var end := PieceEnd(s, i).value;
      PieceEndIsPiece(s, i, end);
      var rest := CodeTextIsReading(s, end);
      ends := [end] + rest;
      assert ends[1..] == rest;
    }
  }

  // The code text keeps exactly the characters outside literals and comments, and there is none
  // exactly if the statement cannot be read because something is not closed.
  lemma CodeTextKeepsCode(s: string, code: string)
    ensures CodeText(s, 0) == Some(code) <==> exists ends :: Reads(s, 0, ends) && Rendered(s, 0, ends) == code
  {
    if CodeText(s, 0) == Some(code) {
      var ends := CodeTextIsReading(s, 0);
      ReadingIsCodeText(s, 0, ends);
    } else if ends :| Reads(s, 0, ends) && Rendered(s, 0, ends) == code {
      ReadingIsCodeText(s, 0, ends);
    }
  }

  // --- The rewrite ---

  predicate IsLetter(c: char) {
    'A' <= c <= 'Z' || c == '_'
  }

  // A word of the code, in any case.
  predicate HasKeyword(code: string, word: string) {
    exists i :: 0 <= i <= |code| - |word| && HasWord(code, i, word)
      && (i > 0 ==> !IsLetter(Upper(code[i - 1]))) && (i + |word| < |code| ==> !IsLetter(Upper(code[i + |word|])))
  }

  function Semicolons(code: string): nat {
    if code == "" then 0 else (if code[0] == ';' then 1 else 0) + Semicolons(code[1..])
  }

  // The last character that is not a space.
  function Trimmed(code: string): string {
    if code != "" && IsSpace(code[|code| - 1]) then Trimmed(code[..|code| - 1]) else code
  }

  // Whether what follows the table name is a column definition of a single statement.
  function CheckRest(rest: string): Option<SchemaError> {
    var start := SpacesEnd(rest, 0);
    if start == |rest| || rest[start] != '(' then Some(INVALID_SCHEMA_DDL)
    else
      var code := CodeText(rest, 0);
      if code.None? then Some(INVALID_SCHEMA_DDL)
      else if HasKeyword(code.value, "FOREIGN") || HasKeyword(code.value, "CONSTRAINT") then Some(UNSUPPORTED_SCHEMA_FEATURE)
      else
        var n, trimmed := Semicolons(code.value), Trimmed(code.value);
        if n > 1 || (n == 1 && (trimmed == "" || trimmed[|trimmed| - 1] != ';')) then Some(INVALID_SCHEMA_DDL) else None
  }

  function Doubled(name: string): string {
    if name == "" then "" else (if name[0] == '`' then "``" else [name[0]]) + Doubled(name[1..])
  }

  function Quoted(name: string): string {
    "`" + Doubled(name) + "`"
  }

  function Rewrite(ddl: string, expected: string, staging: string): Result<string, SchemaError> {
    var start := CreateEnd(ddl);
    if start.None? then Err(INVALID_SCHEMA_DDL)
    else
      var target := IdentifierAt(ddl, start.value);
      if target.None? then Err(INVALID_SCHEMA_DDL)
      else if target.value.name != expected then Err(SCHEMA_TABLE_MISMATCH)
      else
        var rest := ddl[target.value.end..];
        var error := CheckRest(rest);
        if error.Some? then Err(error.value) else Ok(ddl[..start.value] + Quoted(staging) + rest)
  }

  method CheckRestOf(rest: string) returns (error: Option<SchemaError>)
    ensures error == CheckRest(rest)
  {
    var start := SpacesEnd(rest, 0);
    if start == |rest| || rest[start] != '(' { return Some(INVALID_SCHEMA_DDL); }
    var code := ScanCode(rest);
    if code.None? { return Some(INVALID_SCHEMA_DDL); }
    if HasKeyword(code.value, "FOREIGN") || HasKeyword(code.value, "CONSTRAINT") { return Some(UNSUPPORTED_SCHEMA_FEATURE); }
    var n, trimmed := Semicolons(code.value), Trimmed(code.value);
    if n > 1 || (n == 1 && (trimmed == "" || trimmed[|trimmed| - 1] != ';')) { return Some(INVALID_SCHEMA_DDL); }
    error := None;
  }

  method RewriteCreateTableTarget(ddl: string, expected: string, staging: string) returns (r: Result<string, SchemaError>)
    ensures r == Rewrite(ddl, expected, staging)
  {
    var start := CreateEnd(ddl);
    if start.None? { return Err(INVALID_SCHEMA_DDL); }
    var target := ScanIdentifier(ddl, start.value);
    if target.None? { return Err(INVALID_SCHEMA_DDL); }
    if target.value.name != expected { return Err(SCHEMA_TABLE_MISMATCH); }
    var error := CheckRestOf(ddl[target.value.end..]);
    if error.Some? { return Err(error.value); }
    r := Ok(ddl[..start.value] + Quoted(staging) + ddl[target.value.end..]);
  }

  lemma {:induction false} DoubledReads(before: string, name: string, rest: string)
    requires rest != "" && rest[0] != '`'
    ensures QuotedName(before + Doubled(name) + "`" + rest, |before|) == Some(Identifier(name, |before| + |Doubled(name)| + 1))
    decreases |name|
  {
    var s := before + Doubled(name) + "`" + rest;
    if name == "" {
      assert s[|before|] == '`' && s[|before| + 1] == rest[0];
    } else {
      var first := if name[0] == '`' then "``" else [name[0]];
      DoubledReads(before + first, name[1..], rest);
      assert s == before + first + Doubled(name[1..]) + "`" + rest;
      assert s[|before|] == first[0] && name == [name[0]] + name[1..];
      assert name[0] == '`' ==> s[|before| + 1] == '`';
    }
  }

  // The spaces in front of a common beginning end at the same place.
  lemma {:induction false} SameSpaces(a: string, b: string, i: nat, end: nat)
    requires i <= end <= |a| && end < |b| && a[..end] == b[..end] && !IsSpace(b[end])
    requires SpacesEnd(a, i) <= end
    ensures SpacesEnd(b, i) == SpacesEnd(a, i)
    decreases end - i
  {
    assert forall k :: i <= k < end ==> a[k] == a[..end][k] == b[..end][k] == b[k];
    if i < end && IsSpace(a[i]) {
      SameSpaces(a, b, i + 1, end);
    }
  }

  lemma SameCreate(a: string, b: string, end: nat)
    requires CreateEnd(a) == Some(end) && end < |b| && a[..end] == b[..end] && !IsSpace(b[end])
    ensures CreateEnd(b) == Some(end)
  {
    var create := SpacesEnd(a, 0);
    var table := SpacesEnd(a, create + 6);
    SameSpaces(a, b, 0, end);
    SameWord(a, b, create, "CREATE", end);
    SameSpaces(a, b, create + 6, end);
    SameWord(a, b, table, "TABLE", end);
    SameSpaces(a, b, table + 5, end);
  }

  lemma SameWord(a: string, b: string, i: nat, word: string, end: nat)
    requires i + |word| <= end <= |a| && end <= |b| && a[..end] == b[..end]
    ensures HasWord(b, i, word) == HasWord(a, i, word)
  {
    assert forall k :: 0 <= k < end ==> a[k] == a[..end][k] == b[..end][k] == b[k];
  }

  lemma RestStarts(rest: string)
    requires CheckRest(rest).None?
    ensures rest != "" && rest[0] != '`'
  {
  }

  // A quoted name is read back where it was put.
  lemma QuotedReads(before: string, name: string, rest: string)
    requires rest != "" && rest[0] != '`'
    ensures IdentifierAt(before + Quoted(name) + rest, |before|) == Some(Identifier(name, |before| + |Quoted(name)|))
  {
    DoubledReads(before + "`", name, rest);
    assert before + Quoted(name) + rest == before + "`" + Doubled(name) + "`" + rest;
  }

  // Reading the rewritten statement again gives the new name, quoted or doubled as needed, and the
  // unchanged rest; nothing before the name is changed either.
  lemma RewriteChangesOnlyTheName(ddl: string, expected: string, staging: string)
    requires Rewrite(ddl, expected, staging).Ok?
    ensures CreateEnd(ddl).Some? && IdentifierAt(ddl, CreateEnd(ddl).value).Some?
    ensures var start, target := CreateEnd(ddl).value, IdentifierAt(ddl, CreateEnd(ddl).value).value;
            var out := Rewrite(ddl, expected, staging).value;
            && target.name == expected
            && CreateEnd(out) == Some(start) && out[..start] == ddl[..start]
            && IdentifierAt(out, start) == Some(Identifier(staging, start + |Quoted(staging)|))
            && out[start + |Quoted(staging)|..] == ddl[target.end..]
  {
    var start := CreateEnd(ddl).value;
    var rest := ddl[IdentifierAt(ddl, start).value.end..];
    RestStarts(rest);
    QuotedReads(ddl[..start], staging, rest);
    Concatenated(ddl[..start], Quoted(staging), rest);
    SameCreate(ddl, ddl[..start] + Quoted(staging) + rest, start);
  }

  lemma Concatenated(a: string, b: string, c: string)
    requires b != ""
    ensures (a + b + c)[..|a|] == a && (a + b + c)[|a|] == b[0] && (a + b + c)[|a| + |b|..] == c
  {
  }

  // Rewriting twice is rewriting once.
  lemma RewritesCompose(ddl: string, a: string, b: string, c: string)
    requires Rewrite(ddl, a, b).Ok?
    ensures Rewrite(Rewrite(ddl, a, b).value, b, c) == Rewrite(ddl, a, c)
  {
    RewriteChangesOnlyTheName(ddl, a, b);
  }
}
