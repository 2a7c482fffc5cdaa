/** The whole of updateEnvFile: edited lines, appended keys, final newline. */
module EnvEdit {
  import opened Domain
  import opened Text
  import opened StringOrder
  import opened EnvFile

  const DOMAIN: string := "TALOS_DOMAIN"
  const ACME_EMAIL: string := "TALOS_ACME_EMAIL"
  const PROXY_MODE: string := "TALOS_PROXY_MODE"
  const EDGE_PROVIDER: string := "TALOS_EDGE_PROVIDER"
  const EDGE_NETWORK: string := "TALOS_EDGE_NETWORK"
  const EDGE_CERT_RESOLVER: string := "TALOS_EDGE_CERT_RESOLVER"
  const EDGE_ENTRYPOINT: string := "TALOS_EDGE_ENTRYPOINT"

  /** preferredOrder: provider and entrypoint are not in it. */
  const PREFERRED: seq<string> := [DOMAIN, ACME_EMAIL, PROXY_MODE, EDGE_NETWORK, EDGE_CERT_RESOLVER]

  /** The lines for the given keys, in their order; an empty value or no value gives none. */
  function Entries(keys: seq<string>, rem: map<string, string>): seq<string>
  {
    if keys == [] then []
    else (if keys[0] in rem && rem[keys[0]] != "" then [Entry(keys[0], rem[keys[0]])] else []) + Entries(keys[1..], rem)
  }

  lemma {:induction false} EntriesAppend(a: seq<string>, b: seq<string>, rem: map<string, string>)
    ensures Entries(a + b, rem) == Entries(a, rem) + Entries(b, rem)
  {
    if a == [] {
      assert a + b == b;
    } else {
      assert (a + b)[0] == a[0] && (a + b)[1..] == a[1..] + b;
      EntriesAppend(a[1..], b, rem);
    }
  }

  function InPreferred(): (keys: set<string>)
    ensures forall k :: k in keys <==> k in PREFERRED
  {
    set k | k in PREFERRED
  }

  /** Preferred keys in their fixed order, then the others sorted. */
  ghost function AppendOrder(rem: map<string, string>): seq<string>
  {
    PREFERRED + Listing(rem.Keys - InPreferred())
  }

  ghost function Appended(rem: map<string, string>): seq<string>
  {
    Entries(AppendOrder(rem), rem)
  }

  ghost function OutputLines(lines: seq<string>, u: map<string, string>): seq<string>
  {
    Edit(lines, u) + Appended(Leftover(lines, u))
  }

  function Terminated(text: string): string
  {
    if text != "" && text[|text| - 1] != '\n' then text + "\n" else text
  }

  /** The bytes updateEnvFile writes. A missing file has no lines, an empty one has one. */
  ghost function Output(lines: seq<string>, u: map<string, string>): string
  {
    Terminated(Join(OutputLines(lines, u), '\n'))
  }

  function LinesOf(content: Option<string>): seq<string>
  {
    if content.Some? then Split(content.value, '\n') else []
  }

  predicate NoNewlines(lines: seq<string>)
  {
    forall l | l in lines :: '\n' !in l
  }

  // Appended keys.

  lemma KeysDiffer()
    ensures Distinct([DOMAIN, ACME_EMAIL, PROXY_MODE, EDGE_NETWORK, EDGE_CERT_RESOLVER, EDGE_PROVIDER, EDGE_ENTRYPOINT])
  {
    var lengths := [|DOMAIN|, |ACME_EMAIL|, |PROXY_MODE|, |EDGE_NETWORK|, |EDGE_CERT_RESOLVER|, |EDGE_PROVIDER|, |EDGE_ENTRYPOINT|];
    assert lengths == [12, 16, 16, 18, 24, 19, 21];
    assert ACME_EMAIL[6] != PROXY_MODE[6];
  }

  lemma PreferredDistinct()
    ensures Distinct(PREFERRED)
  {
    hide DOMAIN, ACME_EMAIL, PROXY_MODE, EDGE_NETWORK, EDGE_CERT_RESOLVER, EDGE_PROVIDER, EDGE_ENTRYPOINT;
    KeysDiffer();
    var all := [DOMAIN, ACME_EMAIL, PROXY_MODE, EDGE_NETWORK, EDGE_CERT_RESOLVER, EDGE_PROVIDER, EDGE_ENTRYPOINT];
    assert PREFERRED == all[..5];
  }

  lemma AppendOrderDistinct(rem: map<string, string>)
    ensures Distinct(AppendOrder(rem)) && forall k | k in rem :: k in AppendOrder(rem)
  {
    hide Increasing;
    PreferredDistinct();
    var rest := Listing(rem.Keys - InPreferred());
    IncreasingIsDistinct(rest);
    var s := PREFERRED + rest;
    forall i, j | 0 <= i < j < |s| ensures s[i] != s[j] {
      if i < |PREFERRED| <= j {
        assert s[i] in PREFERRED && s[j] in rest;
      }
    }
  }

  lemma {:induction false} EntriesExactly(keys: seq<string>, rem: map<string, string>)
    ensures forall l :: l in Entries(keys, rem) <==>
              exists k :: k in keys && k in rem && rem[k] != "" && l == Entry(k, rem[k])
  {
    if keys != [] {
      EntriesExactly(keys[1..], rem);
    }
  }

  /** How many of the lines begin with the key. */
  function RawCount(lines: seq<string>, k: string): nat
  {
    if lines == [] then 0 else (if RawKey(lines[0]) == Some(k) then 1 else 0) + RawCount(lines[1..], k)
  }

  lemma {:induction false} RawCountAppend(a: seq<string>, b: seq<string>, k: string)
    ensures RawCount(a + b, k) == RawCount(a, k) + RawCount(b, k)
  {
    if a == [] {
      assert a + b == b;
    } else {
      assert (a + b)[0] == a[0] && (a + b)[1..] == a[1..] + b;
      RawCountAppend(a[1..], b, k);
    }
  }

  lemma {:induction false} RawCountZero(lines: seq<string>, k: string)
    ensures RawCount(lines, k) > 0 <==> HasRaw(lines, k)
  {
    if lines != [] {
      RawCountZero(lines[1..], k);
    }
  }

  predicate NoEquals(u: map<string, string>)
  {
    forall k | k in u :: '=' !in k
  }

  lemma {:induction false} EntriesCount(keys: seq<string>, rem: map<string, string>, k: string)
    requires Distinct(keys) && NoEquals(rem)
    ensures RawCount(Entries(keys, rem), k) == if k in keys && k in rem && rem[k] != "" then 1 else 0
  {
    if keys != [] {
      assert Distinct(keys[1..]) && keys[0] !in keys[1..];
      EntriesCount(keys[1..], rem, k);
      var head := if keys[0] in rem && rem[keys[0]] != "" then [Entry(keys[0], rem[keys[0]])] else [];
      RawCountAppend(head, Entries(keys[1..], rem), k);
      if head != [] {
        EntryRaw(keys[0], rem[keys[0]]);
        SingleCount(head[0], k);
      }
      assert k in keys <==> k == keys[0] || k in keys[1..];
    }
  }

  lemma SingleCount(line: string, k: string)
    ensures RawCount([line], k) == if RawKey(line) == Some(k) then 1 else 0
  {
  }

  /** Appended are exactly the non-empty updates whose key begins no line, each once. */
  lemma AppendedExactly(lines: seq<string>, u: map<string, string>, k: string)
    requires NoEquals(u)
    ensures var a := Appended(Leftover(lines, u));
      && RawCount(a, k) == (if k in u && u[k] != "" && !HasRaw(lines, k) then 1 else 0)
      && (RawCount(a, k) == 1 ==> Entry(k, u[k]) in a)
      && (forall l | l in a :: exists x :: x in u && u[x] != "" && !HasRaw(lines, x) && l == Entry(x, u[x]))
  {
    var rem := Leftover(lines, u);
    LeftoverExactly(lines, u);
    AppendOrderDistinct(rem);
    EntriesCount(AppendOrder(rem), rem, k);
    EntriesExactly(AppendOrder(rem), rem);
  }

  // Text and lines.

  lemma {:induction false} EditHasNoNewlines(lines: seq<string>, u: map<string, string>)
    requires NoNewlines(lines) && OneLine(u) && forall k | k in u :: '\n' !in k
    ensures NoNewlines(Edit(lines, u))
  {
    if lines != [] {
      assert lines[0] in lines && forall l | l in lines[1..] :: l in lines;
      EditHasNoNewlines(lines[1..], Remaining(lines[0], u));
    }
  }

  lemma OutputLinesHaveNoNewlines(lines: seq<string>, u: map<string, string>)
    requires NoNewlines(lines) && PlainKeys(u) && OneLine(u)
    ensures NoNewlines(OutputLines(lines, u))
  {
    var rem := Leftover(lines, u);
    EditHasNoNewlines(lines, u);
    LeftoverExactly(lines, u);
    EntriesExactly(AppendOrder(rem), rem);
  }

  /** The lines of the written text: those given, and an empty one for the final newline. */
  function Settled(lines: seq<string>): seq<string>
  {
    if lines != [] && lines[|lines| - 1] == "" then lines else lines + [""]
  }

  lemma {:induction false} JoinEnd(lines: seq<string>)
    requires NoNewlines(lines) && lines != []
    ensures var t, last := Join(lines, '\n'), lines[|lines| - 1];
      && (t == "" <==> lines == [""])
      && (last != "" ==> t != "" && t[|t| - 1] == last[|last| - 1] && t[|t| - 1] != '\n')
      && (last == "" && |lines| > 1 ==> t != "" && t[|t| - 1] == '\n')
  {
    if |lines| > 1 {
      assert forall l | l in lines[1..] :: l in lines;
      assert lines[0] in lines;
      JoinEnd(lines[1..]);
      assert Join(lines, '\n') == lines[0] + ['\n'] + Join(lines[1..], '\n');
    } else {
      assert lines[0] in lines;
    }
  }

  lemma {:induction false} JoinSnoc(lines: seq<string>)
    requires lines != []
    ensures Join(lines + [""], '\n') == Join(lines, '\n') + "\n"
  {
    if |lines| == 1 {
      assert (lines + [""])[1..] == [""];
      assert Join(lines + [""], '\n') == lines[0] + ['\n'] + "";
    } else {
      assert (lines + [""])[1..] == lines[1..] + [""];
      JoinSnoc(lines[1..]);
      assert lines[0] + ['\n'] + (Join(lines[1..], '\n') + "\n") == (lines[0] + ['\n'] + Join(lines[1..], '\n')) + "\n";
    }
  }

  /** Reading the written text back gives the lines that were written. */
  lemma WrittenLines(lines: seq<string>)
    requires NoNewlines(lines)
    ensures Split(Terminated(Join(lines, '\n')), '\n') == Settled(lines)
    ensures Terminated(Join(lines, '\n')) == Join(Settled(lines), '\n')
  {
    if lines == [] {
    } else {
      JoinEnd(lines);
      JoinSnoc(lines);
      assert NoNewlines(Settled(lines));
      SplitOfJoin(Settled(lines), '\n');
    }
  }

  // What the parser finds in the written file.

  lemma {:induction false} EntriesLookup(keys: seq<string>, rem: map<string, string>, k: string)
    requires PlainKeys(rem) && TrimmedValues(rem)
    ensures Lookup(Entries(keys, rem), k) == if k in keys && k in rem && rem[k] != "" then Some(rem[k]) else None
  {
    if keys != [] {
      EntriesLookup(keys[1..], rem, k);
      var head := if keys[0] in rem && rem[keys[0]] != "" then [Entry(keys[0], rem[keys[0]])] else [];
      LookupAppend(head, Entries(keys[1..], rem), k);
      SingleLookup(head, k);
      if head != [] {
        EntryParses(keys[0], rem[keys[0]]);
      }
      assert k in keys <==> k == keys[0] || k in keys[1..];
    }
  }

  lemma SettledLookup(lines: seq<string>, k: string)
    ensures Lookup(Settled(lines), k) == Lookup(lines, k)
  {
    LookupAppend(lines, [""], k);
    SingleLookup([""], k);
  }

  /** The parsed file after an update: keys that were not updated keep their value. */
  lemma ParsedAfterUpdate(lines: seq<string>, u: map<string, string>, k: string)
    requires NoNewlines(lines) && PlainKeys(u) && OneLine(u) && TrimmedValues(u)
    ensures Lookup(Split(Output(lines, u), '\n'), k) ==
              if k !in u then Lookup(lines, k)
              else if u[k] != "" && !HasRaw(lines, k) then Some(u[k])
              else Outcome(lines, k, u[k])
  {
    hide Entries, Edit, Leftover;
    var rem := Leftover(lines, u);
    OutputLinesHaveNoNewlines(lines, u);
    WrittenLines(OutputLines(lines, u));
    SettledLookup(OutputLines(lines, u), k);
    LookupAppend(Edit(lines, u), Appended(rem), k);
    EditedLookup(lines, u, k);
    LeftoverExactly(lines, u);
    AppendOrderDistinct(rem);
    EntriesLookup(AppendOrder(rem), rem, k);
    if k in u {
      OutcomeByPosition(lines, k, u[k]);
    }
  }

  /** An update of a key takes effect: the lines that stay do not say otherwise. */
  predicate TakesEffect(lines: seq<string>, k: string, v: string)
  {
    var i := FirstRaw(lines, k);
    if i == |lines| then v != "" || Lookup(lines, k).None?
    else if v == "" then Lookup(lines[..i], k).None? && Lookup(lines[i + 1..], k).None?
    else Lookup(lines[i + 1..], k).None? || Lookup(lines[i + 1..], k).value == v
  }

  /** Editor and parser agree on an updated key exactly when the update takes effect. */
  lemma UpdateTakesEffectExactly(lines: seq<string>, u: map<string, string>, k: string)
    requires NoNewlines(lines) && PlainKeys(u) && OneLine(u) && TrimmedValues(u) && k in u
    ensures Lookup(Split(Output(lines, u), '\n'), k) == (if u[k] == "" then None else Some(u[k]))
       <==> TakesEffect(lines, k, u[k])
  {
    hide Output, Outcome, Lookup, Split, PlainKeys, OneLine, TrimmedValues, NoNewlines, FirstRaw;
    ParsedAfterUpdate(lines, u, k);
    OutcomeByPosition(lines, k, u[k]);
  }

  /** In particular for a key that is on one line at most and never indented. */
  lemma OnceIsEnough(lines: seq<string>, k: string, v: string)
    requires Plain(k)
    requires forall i, j | 0 <= i < j < |lines| :: !(ValueAt(lines[i], k).Some? && ValueAt(lines[j], k).Some?)
    requires forall i | 0 <= i < |lines| :: ValueAt(lines[i], k).Some? ==> RawKey(lines[i]) == Some(k)
    ensures TakesEffect(lines, k, v)
  {
    hide RawKey, ParseLine, ValueAt, Lookup, Plain;
    var i := FirstRaw(lines, k);
    if i == |lines| {
      forall j | 0 <= j < |lines| ensures ValueAt(lines[j], k).None? {
        NotFirst(lines, k, j);
      }
      LookupNone(lines, k);
    } else {
      FirstRawIsRaw(lines, k);
      RawGivesValue(lines[i], k);
      LookupNone(lines[..i], k);
      var rest := lines[i + 1..];
      forall j | 0 <= j < |rest| ensures ValueAt(rest[j], k).None? {
        assert rest[j] == lines[i + 1 + j];
      }
      LookupNone(rest, k);
    }
  }

  lemma RawGivesValue(line: string, k: string)
    requires RawKey(line) == Some(k) && Plain(k)
    ensures ValueAt(line, k).Some?
  {
    RawLineParses(line);
  }

  lemma {:induction false} NotFirst(lines: seq<string>, k: string, j: nat)
    requires j < |lines| && !HasRaw(lines, k)
    ensures RawKey(lines[j]) != Some(k)
  {
    if j > 0 {
      NotFirst(lines[1..], k, j - 1);
    }
  }

  lemma {:induction false} LookupNone(lines: seq<string>, k: string)
    requires forall i | 0 <= i < |lines| :: ValueAt(lines[i], k).None?
    ensures Lookup(lines, k).None?
  {
    if lines != [] {
      LookupNone(lines[1..], k);
    }
  }

  // What the edit preserves.

  lemma {:induction false} KeptNone(lines: seq<string>, keys: set<string>)
    requires forall l | l in lines :: Tracked(l, keys)
    ensures Kept(lines, keys) == []
  {
    if lines != [] {
      assert lines[0] in lines && forall l | l in lines[1..] :: l in lines;
      KeptNone(lines[1..], keys);
    }
  }

  /** Every line whose key is not updated is still there, byte for byte and in the same order,
      and there is no other such line, but for the final newline. */
  lemma UntouchedLinesSurvive(lines: seq<string>, u: map<string, string>)
    requires NoNewlines(lines) && PlainKeys(u) && OneLine(u)
    ensures var out := Kept(Split(Output(lines, u), '\n'), u.Keys);
            out == Kept(lines, u.Keys) || out == Kept(lines, u.Keys) + [""]
  {
    hide Entries, Edit, Leftover, Output;
    var rem := Leftover(lines, u);
    OutputLinesHaveNoNewlines(lines, u);
    WrittenLines(OutputLines(lines, u));
    AppendedAreTracked(lines, u);
    KeptNone(Appended(rem), u.Keys);
    KeptAppend(Edit(lines, u), Appended(rem), u.Keys);
    EditKeeps(lines, u, u.Keys);
    KeptAppend(OutputLines(lines, u), [""], u.Keys);
    assert Output(lines, u) == Terminated(Join(OutputLines(lines, u), '\n')) by { OutputIs(lines, u); }
  }

  lemma OutputIs(lines: seq<string>, u: map<string, string>)
    ensures Output(lines, u) == Terminated(Join(OutputLines(lines, u), '\n'))
  {
  }

  lemma AppendedAreTracked(lines: seq<string>, u: map<string, string>)
    requires NoEquals(u)
    ensures forall l | l in Appended(Leftover(lines, u)) :: Tracked(l, u.Keys)
  {
    forall l | l in Appended(Leftover(lines, u)) ensures Tracked(l, u.Keys) {
      AppendedExactly(lines, u, "");
      var x :| x in u && u[x] != "" && !HasRaw(lines, x) && l == Entry(x, u[x]);
      EntryRaw(x, u[x]);
    }
  }

  // Doing it twice.

  /** The line the editor will match for a key. */
  function FirstLine(lines: seq<string>, k: string): (l: Option<string>)
    ensures l.Some? <==> HasRaw(lines, k)
  {
    if lines == [] then None
    else if RawKey(lines[0]) == Some(k) then Some(lines[0])
    else FirstLine(lines[1..], k)
  }

  lemma {:induction false} FirstLineAppend(a: seq<string>, b: seq<string>, k: string)
    ensures FirstLine(a + b, k) == Or(FirstLine(a, k), FirstLine(b, k))
  {
    if a == [] {
      assert a + b == b;
    } else {
      assert (a + b)[0] == a[0] && (a + b)[1..] == a[1..] + b;
      FirstLineAppend(a[1..], b, k);
    }
  }

  /** Nothing is left to do for these updates: present keys have their value already. */
  ghost predicate UpToDate(lines: seq<string>, u: map<string, string>)
  {
    forall k | k in u :: FirstLine(lines, k).None? || (u[k] != "" && FirstLine(lines, k) == Some(Entry(k, u[k])))
  }

  /** The editor leaves lines alone exactly when nothing is left to do. */
  lemma {:induction false} EditFixedExactly(lines: seq<string>, u: map<string, string>)
    ensures |Edit(lines, u)| <= |lines|
    ensures Edit(lines, u) == lines <==> UpToDate(lines, u)
  {
    hide RawKey, Entry, UpToDate;
    if lines == [] {
      UpToDateStart(u);
    } else {
      EditFixedExactly(lines[1..], Remaining(lines[0], u));
      UpToDateStep(lines, u);
      assert Edit(lines, u) == lines ==> Edit(lines, u)[1..] == lines[1..];
    }
  }

  lemma UpToDateStart(u: map<string, string>)
    ensures UpToDate([], u)
  {
  }

  lemma UpToDateStep(lines: seq<string>, u: map<string, string>)
    requires lines != []
    ensures UpToDate(lines, u) <==> EditLine(lines[0], u) == [lines[0]] && UpToDate(lines[1..], Remaining(lines[0], u))
  {
    hide RawKey, Entry;
    var rest := Remaining(lines[0], u);
    if UpToDate(lines[1..], rest) && EditLine(lines[0], u) == [lines[0]] {
      forall k | k in u ensures FirstLine(lines, k).None? || (u[k] != "" && FirstLine(lines, k) == Some(Entry(k, u[k]))) {
        if RawKey(lines[0]) != Some(k) {
          assert k in rest && rest[k] == u[k];
        }
      }
    }
  }

  /** The edit puts the new value first among the lines of its key; with an empty value the
      first line goes, and only further ones remain. */
  lemma {:induction false} EditFirst(lines: seq<string>, rem: map<string, string>, k: string)
    requires NoEquals(rem)
    ensures k !in rem ==> FirstLine(Edit(lines, rem), k) == FirstLine(lines, k)
    ensures k in rem && rem[k] != "" ==>
              FirstLine(Edit(lines, rem), k) == if HasRaw(lines, k) then Some(Entry(k, rem[k])) else None
    ensures k in rem && rem[k] == "" ==> (FirstLine(Edit(lines, rem), k).Some? <==> RawCount(lines, k) > 1)
  {
    if lines != [] {
      var head, rest := EditLine(lines[0], rem), Remaining(lines[0], rem);
      EditFirst(lines[1..], rest, k);
      FirstLineAppend(head, Edit(lines[1..], rest), k);
      RawCountZero(lines[1..], k);
      HeadFirst(lines[0], rem, k);
    }
  }

  lemma HeadFirst(line: string, rem: map<string, string>, k: string)
    requires NoEquals(rem)
    ensures FirstLine(EditLine(line, rem), k) ==
              if RawKey(line) != Some(k) then None
              else if k !in rem then Some(line)
              else if rem[k] == "" then None else Some(Entry(k, rem[k]))
  {
    if Tracked(line, rem.Keys) {
      var key := RawKey(line).value;
      EntryRaw(key, rem[key]);
    }
  }

  lemma {:induction false} EntriesFirst(keys: seq<string>, rem: map<string, string>, k: string)
    requires NoEquals(rem)
    ensures FirstLine(Entries(keys, rem), k) == if k in keys && k in rem && rem[k] != "" then Some(Entry(k, rem[k])) else None
  {
    if keys != [] {
      EntriesFirst(keys[1..], rem, k);
      var head := if keys[0] in rem && rem[keys[0]] != "" then [Entry(keys[0], rem[keys[0]])] else [];
      FirstLineAppend(head, Entries(keys[1..], rem), k);
      if head != [] {
        EntryRaw(keys[0], rem[keys[0]]);
      }
      assert k in keys <==> k == keys[0] || k in keys[1..];
    }
  }

  /** What the editor will find for an updated key when it is run again. */
  lemma WrittenFirst(lines: seq<string>, u: map<string, string>, k: string)
    requires NoEquals(u) && k in u
    ensures FirstLine(Settled(OutputLines(lines, u)), k) ==
              if u[k] != "" then Some(Entry(k, u[k])) else FirstLine(Edit(lines, u), k)
    ensures u[k] == "" ==> (FirstLine(Edit(lines, u), k).Some? <==> RawCount(lines, k) > 1)
  {
    hide Entries, Edit, Leftover, FirstLine, RawKey, HasRaw;
    var rem := Leftover(lines, u);
    EditFirst(lines, u, k);
    LeftoverExactly(lines, u);
    AppendOrderDistinct(rem);
    EntriesFirst(AppendOrder(rem), rem, k);
    FirstLineAppend(Edit(lines, u), Appended(rem), k);
    FirstLineAppend(OutputLines(lines, u), [""], k);
    EmptyLineFirst(k);
  }

  lemma EmptyLineFirst(k: string)
    ensures FirstLine([""], k).None?
  {
  }

  /** No key that is to go stands at the beginning of two lines. */
  ghost predicate RemovesOnce(lines: seq<string>, u: map<string, string>)
  {
    forall k | k in u && u[k] == "" :: RawCount(lines, k) <= 1
  }

  lemma SecondTimeExactly(lines: seq<string>, u: map<string, string>)
    requires NoEquals(u)
    ensures UpToDate(Settled(OutputLines(lines, u)), u) <==> RemovesOnce(lines, u)
  {
    hide Entry, RawCount, OutputLines, Settled, FirstLine, Edit;
    forall k | k in u
      ensures u[k] == "" ==> (FirstLine(Settled(OutputLines(lines, u)), k).None? <==> RawCount(lines, k) <= 1)
      ensures u[k] != "" ==> FirstLine(Settled(OutputLines(lines, u)), k) == Some(Entry(k, u[k]))
    {
      WrittenFirst(lines, u, k);
    }
  }

  lemma {:induction false} EntriesNone(keys: seq<string>, rem: map<string, string>)
    requires forall k | k in rem :: rem[k] == ""
    ensures Entries(keys, rem) == []
  {
    if keys != [] {
      EntriesNone(keys[1..], rem);
    }
  }

  /** A second run appends nothing, and keeps the final newline. */
  lemma SecondRunLines(lines: seq<string>, u: map<string, string>)
    requires NoEquals(u)
    ensures var again := Settled(OutputLines(lines, u));
            OutputLines(again, u) == Edit(again, u) && Settled(Edit(again, u)) == Edit(again, u)
  {
    hide Entries, Edit, Leftover, OutputLines, FirstLine;
    var again := Settled(OutputLines(lines, u));
    var rem := Leftover(again, u);
    LeftoverExactly(again, u);
    forall k | k in rem ensures rem[k] == "" {
      WrittenFirst(lines, u, k);
    }
    EntriesNone(AppendOrder(rem), rem);
    assert OutputLines(again, u) == Edit(again, u) + Appended(rem) by { OutputLinesAre(again, u); }
    assert again == again[..|again| - 1] + [""];
    EditAppend(again[..|again| - 1], [""], u);
    EditEmptyLine(Leftover(again[..|again| - 1], u));
  }

  lemma OutputLinesAre(lines: seq<string>, u: map<string, string>)
    ensures OutputLines(lines, u) == Edit(lines, u) + Appended(Leftover(lines, u))
  {
  }

  lemma EditEmptyLine(rem: map<string, string>)
    ensures Edit([""], rem) == [""]
  {
  }

  /** Applying the same update twice gives the same bytes as once, if and only if no key that
      is to go begins two lines or more. */
  lemma IdempotentExactly(lines: seq<string>, u: map<string, string>)
    requires NoNewlines(lines) && PlainKeys(u) && OneLine(u)
    ensures Output(Split(Output(lines, u), '\n'), u) == Output(lines, u) <==> RemovesOnce(lines, u)
  {
    hide OutputLines, Edit, Settled, Terminated, UpToDate, RemovesOnce;
    var again := Settled(OutputLines(lines, u));
    OutputLinesHaveNoNewlines(lines, u);
    WrittenLines(OutputLines(lines, u));
    SplitHasNoNewlines(Output(lines, u));
    SecondRunLines(lines, u);
    SecondTimeExactly(lines, u);
    EditFixedExactly(again, u);
    EditHasNoNewlines(again, u);
    WrittenLines(Edit(again, u));
  }

  lemma SplitHasNoNewlines(text: string)
    ensures NoNewlines(Split(text, '\n'))
  {
  }

  /** A key on two lines: an update of it is overridden by the second line, and removing it
      takes one line per run. */
  lemma DuplicatedKeyDefeatsTheEditor(a: string, b: string, k: string, v: string)
    requires RawKey(a) == Some(k) && RawKey(b) == Some(k) && Plain(k)
    requires v != TrimRight(Cut(b, '=').after)
    ensures !TakesEffect([a, b], k, v) && !TakesEffect([a, b], k, "") && !RemovesOnce([a, b], map[k := ""])
  {
    hide RawKey, TrimRight, Lookup, RawCount, Cut, ParseLine, Outcome;
    RawLineParses(b);
    assert ValueAt(b, k) == Some(TrimRight(Cut(b, '=').after));
    SingleLookup([b], k);
    SecondLineDecides([a, b], k, v);
    SecondLineDecides([a, b], k, "");
    RawCountAppend([a], [b], k);
    assert [a] + [b] == [a, b];
    SingleCount(a, k);
    SingleCount(b, k);
    assert k in map[k := ""];
  }

  lemma SecondLineDecides(lines: seq<string>, k: string, v: string)
    requires |lines| == 2 && RawKey(lines[0]) == Some(k)
    requires Lookup([lines[1]], k).Some? && (v == "" || Lookup([lines[1]], k).value != v)
    ensures !TakesEffect(lines, k, v)
  {
    hide RawKey, Lookup;
    assert lines[1..] == [lines[1]];
    assert FirstRaw(lines, k) == 0;
  }

  lemma SuchAFile()
    ensures !TakesEffect(["A=1", "A=2"], "A", "3") && !RemovesOnce(["A=1", "A=2"], map["A" := ""])
  {
    hide TakesEffect, RemovesOnce;
    CutUnique("A=1", '=', "A", "1");
    CutUnique("A=2", '=', "A", "2");
    DuplicatedKeyDefeatsTheEditor("A=1", "A=2", "A", "3");
  }
}
