/**
 * `_make_queries` of `src/langgraph_flow.py`: the search queries built from the
 * identity fields of a person.
 */
module Queries {
  import opened PyStr

  /** The identity fields, in the order their values enter the base query. */
  const Fields: seq<string> := ["first_name", "last_name", "surname", "phone"]

  /** `(inputs or {}).get(key) or ""` for string-valued inputs. */
  function FieldValue(inputs: map<string, string>, key: string): string {
    if key in inputs then inputs[key] else ""
  }

  /**
   * The parts collected for `keys`: the stripped value of every field whose raw
   * value is not empty. The test comes before the strip, so a field holding
   * only whitespace contributes an empty part.
   */
  function PartsOf(inputs: map<string, string>, keys: seq<string>): (parts: seq<string>)
    ensures |parts| <= |keys|
    decreases |keys|
  {
    if keys == [] then []
    else
      PartsOf(inputs, keys[..|keys| - 1]) + Part(inputs, keys[|keys| - 1])
  }

  /** The base query: `" ".join(parts).strip()`. */
  function Base(inputs: map<string, string>): string {
    Strip(Join(" ", PartsOf(inputs, Fields)))
  }

  /** The five queries built from a non-empty base, in order. */
  function QueryList(base: string): (qs: seq<string>)
    ensures base == "" ==> qs == []
    ensures base != "" ==> |qs| == 5 && forall i :: 0 <= i < 5 ==> base <= qs[i]
  {
    if base == "" then []
    else [base, base + " linkedin", base + " github", base + " twitter", base + " facebook"]
  }

  /**
   * `_make_queries(inputs)`: no query without a base; otherwise the base and
   * its four site variants. The phone query appended sixth is always cut by
   * the final `[:5]`.
   */
  method MakeQueries(inputs: map<string, string>) returns (queries: seq<string>)
    ensures queries == QueryList(Base(inputs))
    ensures |queries| <= 5
  {
    var parts := CollectParts(inputs, Fields);
    var base := Strip(Join(" ", parts));
    queries := BaseVariants(base);
    if base != "" && FieldValue(inputs, "phone") != "" {
      DropAppended(queries, base + " phone " + inputs["phone"]);
      queries := queries + [base + " phone " + inputs["phone"]];
    }
    assert base == Base(inputs);
    queries := queries[..if |queries| < 5 then |queries| else 5];
  }

  /** The appends of `_make_queries` that build the base query and its four site variants. */
  method BaseVariants(base: string) returns (queries: seq<string>)
    ensures queries == QueryList(base)
  {
    queries := [];
    if base != "" {
      queries := queries + [base];
      queries := queries + [base + " linkedin"];
      queries := queries + [base + " github"];
      queries := queries + [base + " twitter"];
      queries := queries + [base + " facebook"];
    }
  }

  /** An empty part joined between two separators leaves them side by side. */
  lemma EmptyMiddle<T>(a: seq<T>, sep: seq<T>, b: seq<T>)
    ensures a + sep + [] + sep + b == a + (sep + sep) + b
  {
  }

  /** Cutting an appended element off again gives back the original sequence. */
  lemma DropAppended<T>(xs: seq<T>, y: T)
    ensures (xs + [y])[..|xs|] == xs
  {
  }

  /** The loop of `_make_queries` that collects the parts for `keys`, in order. */
  method CollectParts(inputs: map<string, string>, keys: seq<string>) returns (parts: seq<string>)
    ensures parts == PartsOf(inputs, keys)
  {
    parts := [];
    for i := 0 to |keys|
      invariant parts == PartsOf(inputs, keys[..i])
    {
      var v := FieldValue(inputs, keys[i]);
      if v != "" {
        parts := parts + [Strip(v)];
      }
      assert keys[..i + 1][..i] == keys[..i];
    }
    assert keys[..|keys|] == keys;
  }

  /** The part one field contributes. */
  function Part(inputs: map<string, string>, key: string): (p: seq<string>)
    ensures key !in inputs || inputs[key] == "" <==> p == []
  {
    var v := FieldValue(inputs, key);
    if v != "" then [Strip(v)] else []
  }

  /** Every part in `ps` is only whitespace. */
  predicate BlankParts(ps: seq<string>) {
    forall i :: 0 <= i < |ps| ==> AllSpace(ps[i])
  }

  /** Every field of `keys` is missing, empty or only whitespace. */
  predicate BlankFields(inputs: map<string, string>, keys: seq<string>) {
    forall j :: 0 <= j < |keys| ==> AllSpace(FieldValue(inputs, keys[j]))
  }

  /** Collecting the parts of one more field appends that field's part. */
  lemma PartsOfSnoc(inputs: map<string, string>, keys: seq<string>, key: string)
    ensures PartsOf(inputs, keys + [key]) == PartsOf(inputs, keys) + Part(inputs, key)
  {
    assert (keys + [key])[..|keys|] == keys;
  }

  lemma BlankPartsAppend(a: seq<string>, b: seq<string>)
    ensures BlankParts(a + b) <==> BlankParts(a) && BlankParts(b)
  {
    if BlankParts(a) && BlankParts(b) {
      forall i | 0 <= i < |a + b| ensures AllSpace((a + b)[i]) {
        if i < |a| { assert (a + b)[i] == a[i]; } else { assert (a + b)[i] == b[i - |a|]; }
      }
    }
    if BlankParts(a + b) {
      forall i | 0 <= i < |a| ensures AllSpace(a[i]) { assert (a + b)[i] == a[i]; }
      forall i | 0 <= i < |b| ensures AllSpace(b[i]) { assert (a + b)[|a| + i] == b[i]; }
    }
  }

  lemma BlankFieldsSnoc(inputs: map<string, string>, keys: seq<string>, key: string)
    ensures BlankFields(inputs, keys + [key]) <==>
      BlankFields(inputs, keys) && AllSpace(FieldValue(inputs, key))
  {
    var ks := keys + [key];
    if BlankFields(inputs, ks) {
      forall j | 0 <= j < |keys| ensures AllSpace(FieldValue(inputs, keys[j])) { assert ks[j] == keys[j]; }
      assert ks[|keys|] == key;
    }
  }

  /** A field's part is blank exactly when the field is blank. */
  lemma BlankPart(inputs: map<string, string>, key: string)
    ensures BlankParts(Part(inputs, key)) <==> AllSpace(FieldValue(inputs, key))
  {
    var v := FieldValue(inputs, key);
    if v != "" {
      var p := Part(inputs, key);
      assert p[0] == Strip(v);
      StripShape(v);
      StripShape(Strip(v));
    }
  }

  /** Every collected part is whitespace exactly when every field of `keys` is missing or whitespace. */
  lemma {:induction false} PartsAllSpace(inputs: map<string, string>, keys: seq<string>)
    ensures BlankParts(PartsOf(inputs, keys)) <==> BlankFields(inputs, keys)
    decreases |keys|
  {
    if keys != [] {
      var init := keys[..|keys| - 1];
      var key := keys[|keys| - 1];
      assert keys == init + [key];
      PartsAllSpace(inputs, init);
      PartsOfSnoc(inputs, init, key);
      BlankPartsAppend(PartsOf(inputs, init), Part(inputs, key));
      BlankFieldsSnoc(inputs, init, key);
      BlankPart(inputs, key);
    }
  }

  /**
   * `_make_queries` returns no query exactly when every identity field is
   * missing, empty or only whitespace; otherwise it returns five.
   */
  lemma NoQueriesIff(inputs: map<string, string>)
    ensures QueryList(Base(inputs)) == [] <==> BlankFields(inputs, Fields)
    ensures QueryList(Base(inputs)) != [] ==> |QueryList(Base(inputs))| == 5
  {
    PartsAllSpace(inputs, Fields);
    JoinAllSpace(PartsOf(inputs, Fields));
    StripShape(Join(" ", PartsOf(inputs, Fields)));
  }

  /** `PartsOf` over two, three and four keys, one key at a time. */
  lemma PartsOfTwo(inputs: map<string, string>, a: string, b: string)
    ensures PartsOf(inputs, [a, b]) == Part(inputs, a) + Part(inputs, b)
  {
    assert [a][..0] == [];
    assert PartsOf(inputs, [a]) == Part(inputs, a);
    assert [a, b][..1] == [a];
  }

  lemma PartsOfThree(inputs: map<string, string>, a: string, b: string, c: string)
    ensures PartsOf(inputs, [a, b, c]) == Part(inputs, a) + Part(inputs, b) + Part(inputs, c)
  {
    PartsOfTwo(inputs, a, b);
    PartsOfSnoc(inputs, [a, b], c);
    assert [a, b] + [c] == [a, b, c];
  }

  lemma PartsOfFour(inputs: map<string, string>, a: string, b: string, c: string, d: string)
    ensures PartsOf(inputs, [a, b, c, d]) ==
      Part(inputs, a) + Part(inputs, b) + Part(inputs, c) + Part(inputs, d)
  {
    PartsOfThree(inputs, a, b, c);
    PartsOfSnoc(inputs, [a, b, c], d);
    assert [a, b, c] + [d] == [a, b, c, d];
  }

  /** `PartsOf` over the four identity fields, one field at a time. */
  lemma PartsOfFields(inputs: map<string, string>)
    ensures PartsOf(inputs, Fields) ==
      Part(inputs, "first_name") + Part(inputs, "last_name") + Part(inputs, "surname") + Part(inputs, "phone")
  {
    PartsOfFour(inputs, "first_name", "last_name", "surname", "phone");
  }

  /** Only the two name fields contribute parts, each one as it is. */
  lemma TwoNamesParts(inputs: map<string, string>, first: string, last: string)
    requires FieldValue(inputs, "first_name") == first && FieldValue(inputs, "last_name") == last
    requires FieldValue(inputs, "surname") == "" && FieldValue(inputs, "phone") == ""
    requires first != "" && last != "" && Trimmed(first) && Trimmed(last)
    ensures PartsOf(inputs, Fields) == [first, last]
  {
    StripKeepsTrimmed(first);
    StripKeepsTrimmed(last);
    PartsOfFields(inputs);
  }

  /** Trimmed first and last names and nothing else give the base query "first last". */
  lemma TwoNamesBase(inputs: map<string, string>, first: string, last: string)
    requires FieldValue(inputs, "first_name") == first && FieldValue(inputs, "last_name") == last
    requires FieldValue(inputs, "surname") == "" && FieldValue(inputs, "phone") == ""
    requires first != "" && last != "" && Trimmed(first) && Trimmed(last)
    ensures Base(inputs) == first + " " + last
  {
    TwoNamesParts(inputs, first, last);
    JoinTwo(" ", first, last);
    StripKeepsEnds(first, " ", last);
  }

  /** The second query for those names is the LinkedIn one. */
  lemma TwoNamesLinkedIn(inputs: map<string, string>, first: string, last: string)
    requires FieldValue(inputs, "first_name") == first && FieldValue(inputs, "last_name") == last
    requires FieldValue(inputs, "surname") == "" && FieldValue(inputs, "phone") == ""
    requires first != "" && last != "" && Trimmed(first) && Trimmed(last)
    ensures var qs := QueryList(Base(inputs));
      |qs| == 5 && qs[1] == first + " " + last + " linkedin"
  {
    TwoNamesBase(inputs, first, last);
  }

  /** A whitespace-only middle field contributes an empty part between the other two. */
  lemma BlankMiddleParts(inputs: map<string, string>, first: string, blank: string, surname: string)
    requires FieldValue(inputs, "first_name") == first && FieldValue(inputs, "last_name") == blank
    requires FieldValue(inputs, "surname") == surname && FieldValue(inputs, "phone") == ""
    requires first != "" && surname != "" && Trimmed(first) && Trimmed(surname)
    requires blank != "" && AllSpace(blank)
    ensures PartsOf(inputs, Fields) == [first, "", surname]
  {
    StripKeepsTrimmed(first);
    StripKeepsTrimmed(surname);
    StripShape(blank);
    PartsOfFields(inputs);
  }

  /** A whitespace-only middle field leaves two spaces inside the base query. */
  lemma BlankMiddleFieldDoublesSpace(inputs: map<string, string>, first: string, blank: string, surname: string)
    requires FieldValue(inputs, "first_name") == first && FieldValue(inputs, "last_name") == blank
    requires FieldValue(inputs, "surname") == surname && FieldValue(inputs, "phone") == ""
    requires first != "" && surname != "" && Trimmed(first) && Trimmed(surname)
    requires blank != "" && AllSpace(blank)
    ensures Base(inputs) == first + "  " + surname
  {
    BlankMiddleParts(inputs, first, blank, surname);
    JoinThree(" ", first, "", surname);
    EmptyMiddle(first, " ", surname);
    assert " " + " " == "  ";
    StripKeepsEnds(first, "  ", surname);
  }
}
