/** Text folding shared by the prompt assembler and the streaming relay:
    concatenating a list of pieces, dropping empty tokens, and writing each
    history entry on a line of its own. */
module ChatText {

  /** The pieces written one after another, first to last. */
  function Concat(parts: seq<string>): string
  {
    if parts == [] then "" else Concat(parts[..|parts| - 1]) + parts[|parts| - 1]
  }

  /** The tokens that carry content, in their original order. */
  function NonEmpty(tokens: seq<string>): (r: seq<string>)
    ensures |r| <= |tokens|
    ensures forall i :: 0 <= i < |r| ==> r[i] != ""
    ensures multiset(r) <= multiset(tokens)
    ensures forall t :: t != "" ==> multiset(r)[t] == multiset(tokens)[t]
  {
    if tokens == [] then []
    else
      var init, t := tokens[..|tokens| - 1], tokens[|tokens| - 1];
      assert tokens == init + [t];
      NonEmpty(init) + (if t == "" then [] else [t])
  }

  /** Every entry followed by a newline, in insertion order. */
  function Lines(entries: seq<string>): string
  {
    if entries == [] then "" else Lines(entries[..|entries| - 1]) + entries[|entries| - 1] + "\n"
  }

  /** Each entry with its terminating newline, as a list of pieces. */
  function Terminated(entries: seq<string>): (r: seq<string>)
    ensures |r| == |entries|
    ensures forall i :: 0 <= i < |entries| ==> r[i] == entries[i] + "\n"
  {
    seq(|entries|, i requires 0 <= i < |entries| => entries[i] + "\n")
  }

  /** Concatenation distributes over sequence concatenation. */
  lemma {:induction false} ConcatAppend(a: seq<string>, b: seq<string>)
    ensures Concat(a + b) == Concat(a) + Concat(b)
    decreases |b|
  {
    if b == [] {
      assert a + b == a;
    } else {
      var init := b[..|b| - 1];
      assert (a + b)[..|a + b| - 1] == a + init;
      ConcatAppend(a, init);
    }
  }

  /** A single piece concatenates to itself. */
  lemma ConcatSingle(x: string)
    ensures Concat([x]) == x
  {
  }

  /** Dropping the empty tokens does not change the concatenated text. */
  lemma {:induction false} ConcatNonEmpty(tokens: seq<string>)
    ensures Concat(NonEmpty(tokens)) == Concat(tokens)
    decreases |tokens|
  {
    if tokens != [] {
      var init, t := tokens[..|tokens| - 1], tokens[|tokens| - 1];
      ConcatNonEmpty(init);
      if t == "" {
        assert NonEmpty(tokens) == NonEmpty(init) + [];
        assert NonEmpty(tokens) == NonEmpty(init);
      } else {
        ConcatAppend(NonEmpty(init), [t]);
        ConcatSingle(t);
      }
    }
  }

  /** No token is kept exactly when every token is empty. */
  lemma {:induction false} NonEmptyEmptyIff(tokens: seq<string>)
    ensures NonEmpty(tokens) == [] <==> forall i :: 0 <= i < |tokens| ==> tokens[i] == ""
    decreases |tokens|
  {
    if tokens != [] {
      var init := tokens[..|tokens| - 1];
      NonEmptyEmptyIff(init);
      assert forall i :: 0 <= i < |init| ==> init[i] == tokens[i];
    }
  }

  /** Lines distributes over sequence concatenation. */
  lemma {:induction false} LinesAppend(a: seq<string>, b: seq<string>)
    ensures Lines(a + b) == Lines(a) + Lines(b)
    decreases |b|
  {
    if b == [] {
      assert a + b == a;
    } else {
      var init := b[..|b| - 1];
      assert (a + b)[..|a + b| - 1] == a + init;
      LinesAppend(a, init);
    }
  }

  /** Lines is the concatenation of the newline-terminated entries. */
  lemma {:induction false} LinesAsConcat(entries: seq<string>)
    ensures Lines(entries) == Concat(Terminated(entries))
    decreases |entries|
  {
    if entries != [] {
      var init := entries[..|entries| - 1];
      LinesAsConcat(init);
      assert Terminated(entries)[..|entries| - 1] == Terminated(init);
    }
  }

  /** Entry i sits, with its newline, right after the lines of the entries
      before it: the fold keeps insertion order. */
  lemma LinesEntryAt(entries: seq<string>, i: nat)
    requires i < |entries|
    ensures |Lines(entries[..i])| + |entries[i]| + 1 <= |Lines(entries)|
    ensures Lines(entries)[|Lines(entries[..i])|..|Lines(entries[..i])| + |entries[i]| + 1] == entries[i] + "\n"
  {
    var before, rest := entries[..i], entries[i + 1..];
    assert entries == before + [entries[i]] + rest;
    LinesAppend(before + [entries[i]], rest);
    LinesAppend(before, [entries[i]]);
    assert [entries[i]][..0] == [];
    assert Lines([entries[i]]) == entries[i] + "\n";
    assert Lines(entries) == Lines(before) + (entries[i] + "\n") + Lines(rest);
  }
}
