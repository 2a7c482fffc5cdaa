/** The text of the env file: the parser readEnvValues and the line editor updateEnvFile as
    functions on lines, and how the two agree. */
module EnvFile {
  import opened Domain
  import opened Text

  function Or<T>(a: Option<T>, b: Option<T>): Option<T>
  {
    if a.Some? then a else b
  }

  // The parser.

  /** One line as readEnvValues sees it: blank lines, comments and lines without "=" say nothing. */
  function ParseLine(line: string): Option<(string, string)>
  {
    var t := TrimSpace(line);
    if t == "" || t[0] == '#' || !Cut(t, '=').found then None
    else Some((Cut(t, '=').before, Cut(t, '=').after))
  }

  /** A line says k = v exactly when that is what stands on it between the surrounding spaces,
      the line is no comment, and the key has no "=" of its own. */
  lemma ParseLineExactly(line: string, k: string, v: string)
    ensures ParseLine(line) == Some((k, v)) <==>
              Stripped(line, k + "=" + v) && '=' !in k && (k == "" || k[0] != '#')
  {
    hide IsSpace, TrimSpace;
    StrippedUnique(line, k + "=" + v);
    if '=' !in k {
      CutUnique(k + "=" + v, '=', k, v);
    }
  }

  function ValueAt(line: string, k: string): Option<string>
  {
    var p := ParseLine(line);
    if p.Some? && p.value.0 == k then Some(p.value.1) else None
  }

  /** The value the parsed file has for a key: the last line for it wins. */
  function Lookup(lines: seq<string>, k: string): Option<string>
  {
    if lines == [] then None else Or(Lookup(lines[1..], k), ValueAt(lines[0], k))
  }

  lemma {:induction false} LookupAppend(a: seq<string>, b: seq<string>, k: string)
    ensures Lookup(a + b, k) == Or(Lookup(b, k), Lookup(a, k))
  {
    if a == [] {
      assert a + b == b;
    } else {
      assert (a + b)[0] == a[0] && (a + b)[1..] == a[1..] + b;
      LookupAppend(a[1..], b, k);
    }
  }

  /** Line i says k = v and no later line says anything about k. */
  predicate SaysLast(lines: seq<string>, k: string, v: string, i: nat)
    requires i < |lines|
  {
    ParseLine(lines[i]) == Some((k, v)) && forall j :: i < j < |lines| ==> ValueAt(lines[j], k).None?
  }

  lemma Shifted(lines: seq<string>, k: string, v: string, i: nat)
    requires lines != [] && i < |lines[1..]|
    ensures SaysLast(lines, k, v, i + 1) <==> SaysLast(lines[1..], k, v, i)
  {
    hide ParseLine, ValueAt;
    assert forall j :: i + 1 < j < |lines| ==> lines[j] == lines[1..][j - 1];
    assert forall j :: i < j < |lines[1..]| ==> lines[1..][j] == lines[j + 1];
  }

  lemma {:induction false} NoneSay(lines: seq<string>, k: string)
    ensures Lookup(lines, k).None? <==> forall j :: 0 <= j < |lines| ==> ValueAt(lines[j], k).None?
  {
    hide ParseLine, ValueAt;
    if lines != [] {
      NoneSay(lines[1..], k);
      assert forall j :: 0 < j < |lines| ==> lines[j] == lines[1..][j - 1];
      assert forall j :: 0 <= j < |lines[1..]| ==> lines[1..][j] == lines[j + 1];
    }
  }

  /** It is what the last line for the key says; there is none if no line says anything. */
  lemma {:induction false} LookupExactly(lines: seq<string>, k: string, v: string)
    ensures Lookup(lines, k) == Some(v) <==>
              exists i :: 0 <= i < |lines| && SaysLast(lines, k, v, i)
  {
    hide ParseLine;
    if lines != [] {
      LookupExactly(lines[1..], k, v);
      if Lookup(lines[1..], k) == Some(v) {
        var i :| 0 <= i < |lines[1..]| && SaysLast(lines[1..], k, v, i);
        assert SaysLast(lines, k, v, i + 1) by { Shifted(lines, k, v, i); }
      } else if Lookup(lines, k) == Some(v) {
        NoneSay(lines[1..], k);
        assert SaysLast(lines, k, v, 0);
      }
      if i :| 0 <= i < |lines| && SaysLast(lines, k, v, i) {
        if i == 0 {
          NoneSay(lines[1..], k);
        } else {
          Shifted(lines, k, v, i - 1);
        }
      }
    }
  }

  // The editor.

  /** The editor matches on the raw text before the first "=". */
  function RawKey(line: string): Option<string>
  {
    if Cut(line, '=').found then Some(Cut(line, '=').before) else None
  }

  predicate Tracked(line: string, keys: set<string>)
  {
    RawKey(line).Some? && RawKey(line).value in keys
  }

  function Entry(k: string, v: string): string
  {
    k + "=" + v
  }

  /** What becomes of one line, given the updates not used so far, and which remain. */
  function EditLine(line: string, rem: map<string, string>): seq<string>
  {
    if !Tracked(line, rem.Keys) then [line]
    else
      var k := RawKey(line).value;
      if rem[k] == "" then [] else [Entry(k, rem[k])]
  }

  function Remaining(line: string, rem: map<string, string>): map<string, string>
  {
    if Tracked(line, rem.Keys) then rem - {RawKey(line).value} else rem
  }

  function Edit(lines: seq<string>, rem: map<string, string>): seq<string>
  {
    if lines == [] then [] else EditLine(lines[0], rem) + Edit(lines[1..], Remaining(lines[0], rem))
  }

  function Leftover(lines: seq<string>, rem: map<string, string>): map<string, string>
  {
    if lines == [] then rem else Leftover(lines[1..], Remaining(lines[0], rem))
  }

  /** The editor's view of a key: its first raw line. */
  function FirstRaw(lines: seq<string>, k: string): (i: nat)
    ensures i <= |lines|
  {
    if lines == [] || RawKey(lines[0]) == Some(k) then 0 else 1 + FirstRaw(lines[1..], k)
  }

  lemma {:induction false} FirstRawIsRaw(lines: seq<string>, k: string)
    requires HasRaw(lines, k)
    ensures RawKey(lines[FirstRaw(lines, k)]) == Some(k)
  {
    hide RawKey;
    if RawKey(lines[0]) != Some(k) {
      FirstRawIsRaw(lines[1..], k);
    }
  }

  predicate HasRaw(lines: seq<string>, k: string)
  {
    FirstRaw(lines, k) < |lines|
  }

  lemma {:induction false} EditAppend(a: seq<string>, b: seq<string>, rem: map<string, string>)
    ensures Edit(a + b, rem) == Edit(a, rem) + Edit(b, Leftover(a, rem))
    ensures Leftover(a + b, rem) == Leftover(b, Leftover(a, rem))
  {
    hide EditLine, Remaining;
    if a == [] {
      assert a + b == b;
    } else {
      assert (a + b)[0] == a[0] && (a + b)[1..] == a[1..] + b;
      EditAppend(a[1..], b, Remaining(a[0], rem));
    }
  }

  /** The updates left over are exactly those whose key begins no line. */
  lemma {:induction false} LeftoverExactly(lines: seq<string>, rem: map<string, string>)
    ensures Leftover(lines, rem) == map k | k in rem && !HasRaw(lines, k) :: rem[k]
  {
    if lines != [] {
      LeftoverExactly(lines[1..], Remaining(lines[0], rem));
      assert forall k :: HasRaw(lines, k) <==> RawKey(lines[0]) == Some(k) || HasRaw(lines[1..], k);
    }
  }

  /** Lines whose key is not updated. */
  function Kept(lines: seq<string>, keys: set<string>): seq<string>
  {
    if lines == [] then []
    else (if Tracked(lines[0], keys) then [] else [lines[0]]) + Kept(lines[1..], keys)
  }

  lemma {:induction false} KeptAppend(a: seq<string>, b: seq<string>, keys: set<string>)
    ensures Kept(a + b, keys) == Kept(a, keys) + Kept(b, keys)
  {
    if a == [] {
      assert a + b == b;
    } else {
      assert (a + b)[0] == a[0] && (a + b)[1..] == a[1..] + b;
      KeptAppend(a[1..], b, keys);
    }
  }

  /** A key the editor can be given: it can stand before "=" on a line of its own, and the
      parser reads it back as it is. */
  predicate Plain(k: string)
  {
    k != "" && !IsSpace(k[0]) && k[0] != '#' && '=' !in k && '\n' !in k
  }

  predicate PlainKeys(u: map<string, string>)
  {
    forall k | k in u :: Plain(k)
  }

  predicate OneLine(u: map<string, string>)
  {
    forall k | k in u :: '\n' !in u[k]
  }

  lemma EntryRaw(k: string, v: string)
    requires '=' !in k
    ensures RawKey(Entry(k, v)) == Some(k)
  {
    CutUnique(Entry(k, v), '=', k, v);
  }

  /** A line that the editor matches to a plain key is a line that the parser reads for it. */
  lemma RawLineParses(line: string)
    requires RawKey(line).Some? && Plain(RawKey(line).value)
    ensures ParseLine(line) == Some((RawKey(line).value, TrimRight(Cut(line, '=').after)))
  {
    var k, v := RawKey(line).value, Cut(line, '=').after;
    assert line == k + "=" + v && TrimLeft(line) == line;
    TrimRightAfter(k + "=", v);
    var t := TrimSpace(line);
    assert t == k + "=" + TrimRight(v);
    CutUnique(t, '=', k, TrimRight(v));
  }

  lemma EntryParses(k: string, v: string)
    requires Plain(k) && Trimmed(v)
    ensures ParseLine(Entry(k, v)) == Some((k, v))
  {
    EntryRaw(k, v);
    CutUnique(Entry(k, v), '=', k, v);
    RawLineParses(Entry(k, v));
  }

  /** The untouched lines survive byte for byte and in order. */
  lemma {:induction false} EditKeeps(lines: seq<string>, rem: map<string, string>, keys: set<string>)
    requires rem.Keys <= keys && forall k | k in rem :: '=' !in k
    ensures Kept(Edit(lines, rem), keys) == Kept(lines, keys)
  {
    if lines != [] {
      var head, rest := EditLine(lines[0], rem), Remaining(lines[0], rem);
      EditKeeps(lines[1..], rest, keys);
      KeptAppend(head, Edit(lines[1..], rest), keys);
      if Tracked(lines[0], rem.Keys) {
        var k := RawKey(lines[0]).value;
        EntryRaw(k, rem[k]);
      }
    }
  }

  /** A key that is present is replaced where it stands: what comes before and after it is the
      edit of what came before and after. */
  lemma ReplacedInPlace(lines: seq<string>, u: map<string, string>, k: string)
    requires k in u && HasRaw(lines, k) && forall x | x in u :: '=' !in x
    ensures var i := FirstRaw(lines, k);
            var before, after := Edit(lines[..i], u), Edit(lines[i + 1..], Leftover(lines[..i], u) - {k});
      && Edit(lines, u) == before + (if u[k] == "" then [] else [Entry(k, u[k])]) + after
      && Kept(before, u.Keys) == Kept(lines[..i], u.Keys)
      && Kept(after, u.Keys) == Kept(lines[i + 1..], u.Keys)
  {
    hide RawKey, Entry, Kept, Edit, Leftover;
    var i := FirstRaw(lines, k);
    var rem := Leftover(lines[..i], u);
    assert lines == lines[..i] + lines[i..];
    EditAppend(lines[..i], lines[i..], u);
    LeftoverExactly(lines[..i], u);
    NoRawBefore(lines, k);
    FirstRawIsRaw(lines, k);
    EditHead(lines[i..], rem, k);
    assert lines[i..][1..] == lines[i + 1..];
    EditKeeps(lines[..i], u, u.Keys);
    EditKeeps(lines[i + 1..], rem - {k}, u.Keys);
  }

  lemma {:induction false} NoRawBefore(lines: seq<string>, k: string)
    ensures !HasRaw(lines[..FirstRaw(lines, k)], k)
  {
    hide RawKey;
    var i := FirstRaw(lines, k);
    if i > 0 {
      NoRawBefore(lines[1..], k);
      assert lines[..i][1..] == lines[1..][..i - 1] && lines[..i][0] == lines[0];
    }
  }

  lemma EditHead(lines: seq<string>, rem: map<string, string>, k: string)
    requires lines != [] && RawKey(lines[0]) == Some(k) && k in rem
    ensures Edit(lines, rem) == (if rem[k] == "" then [] else [Entry(k, rem[k])]) + Edit(lines[1..], rem - {k})
  {
  }

  // What the parser finds in the edited lines.

  /** What the parser will find for an updated key: the first line the editor matches gives
      way to the new value, every other line stays. */
  function Outcome(lines: seq<string>, k: string, v: string): Option<string>
  {
    if lines == [] then None
    else if RawKey(lines[0]) == Some(k) then Or(Lookup(lines[1..], k), if v == "" then None else Some(v))
    else Or(Outcome(lines[1..], k, v), ValueAt(lines[0], k))
  }

  predicate TrimmedValues(u: map<string, string>)
  {
    forall k | k in u :: Trimmed(u[k])
  }

  lemma {:induction false} EditedLookup(lines: seq<string>, rem: map<string, string>, k: string)
    requires PlainKeys(rem) && TrimmedValues(rem)
    ensures Lookup(Edit(lines, rem), k) == if k in rem then Outcome(lines, k, rem[k]) else Lookup(lines, k)
  {
    hide RawKey, ValueAt, EditLine, Trimmed, Plain;
    if lines != [] {
      var line, rest := lines[0], Remaining(lines[0], rem);
      EditedLookup(lines[1..], rest, k);
      LookupAppend(EditLine(line, rem), Edit(lines[1..], rest), k);
      EditedLine(line, rem, k);
    }
  }

  lemma EditedLine(line: string, rem: map<string, string>, k: string)
    requires PlainKeys(rem) && TrimmedValues(rem)
    ensures Lookup(EditLine(line, rem), k) ==
              if k in rem && RawKey(line) == Some(k) then (if rem[k] == "" then None else Some(rem[k])) else ValueAt(line, k)
  {
    hide RawKey, ParseLine, Lookup, Entry, Trimmed, Plain;
    SingleLookup(EditLine(line, rem), k);
    if Tracked(line, rem.Keys) {
      RawLineParses(line);
      EntryParses(RawKey(line).value, rem[RawKey(line).value]);
    }
  }

  lemma LookupHead(lines: seq<string>, k: string)
    requires lines != []
    ensures Lookup(lines, k) == Or(Lookup(lines[1..], k), ValueAt(lines[0], k))
  {
  }

  lemma SingleLookup(lines: seq<string>, k: string)
    requires |lines| <= 1
    ensures Lookup(lines, k) == if lines == [] then None else ValueAt(lines[0], k)
  {
  }

  /** The same by position: lines after the matched one can override the new value, and when
      the key is to go, lines before it can bring it back. */
  lemma {:induction false} OutcomeByPosition(lines: seq<string>, k: string, v: string)
    ensures var i := FirstRaw(lines, k);
            Outcome(lines, k, v) ==
              if i == |lines| then Lookup(lines, k)
              else Or(Lookup(lines[i + 1..], k), if v == "" then Lookup(lines[..i], k) else Some(v))
  {
    hide RawKey, ValueAt, Lookup, FirstRaw;
    FirstRawStep(lines, k);
    if lines == [] {
      LookupNothing(k);
    } else if RawKey(lines[0]) == Some(k) {
      LookupNothing(k);
      assert lines[..0] == [];
    } else {
      var i := FirstRaw(lines[1..], k);
      OutcomeByPosition(lines[1..], k, v);
      LookupHead(lines, k);
      if i < |lines[1..]| {
        PrefixLookup(lines, i, k);
        assert lines[1..][i + 1..] == lines[i + 2..];
      }
    }
  }

  lemma FirstRawStep(lines: seq<string>, k: string)
    ensures FirstRaw(lines, k) == if lines == [] || RawKey(lines[0]) == Some(k) then 0 else 1 + FirstRaw(lines[1..], k)
  {
  }

  lemma LookupNothing(k: string)
    ensures Lookup([], k) == None
  {
  }

  lemma PrefixLookup(lines: seq<string>, i: nat, k: string)
    requires i < |lines|
    ensures Lookup(lines[..i + 1], k) == Or(Lookup(lines[1..][..i], k), ValueAt(lines[0], k))
  {
    hide ValueAt, Lookup;
    LookupHead(lines[..i + 1], k);
    assert lines[..i + 1][1..] == lines[1..][..i];
  }
}
