/** `fix_vocabulary_format`: the repair the song-vocabulary agent applies to
    the model's final answer, so that every vocabulary item has a kanji, a
    romaji and an English field and a non-empty list of parts, each part with
    a kanji and a romaji. */
module VocabFormat {

  import opened Wrappers
  import Dicts
  import Text

  /** A decoded JSON value; numbers are integers here. */
  datatype Json =
    | Null
    | Bool(b: bool)
    | Num(n: int)
    | Str(s: string)
    | List(items: seq<Json>)
    | Obj(fields: Dicts.Dict<string, Json>)

  /** Python's truth value of a decoded JSON value. */
  predicate Truthy(j: Json) {
    match j
    case Null => false
    case Bool(b) => b
    case Num(n) => n != 0
    case Str(s) => s != ""
    case List(xs) => xs != []
    case Obj(d) => d.vals != map[]
  }

  /** The exceptions the repair can end in: assigning a key of something
      that is not a dictionary, or taking element 0 of a dictionary or of
      a number. */
  datatype PyError = TypeError | KeyError

  /** The key is present with a truthy value. */
  predicate Filled(d: Dicts.Dict<string, Json>, k: string) {
    k in d.vals && Truthy(d.vals[k])
  }

  // ---------------------------------------------------------------------
  // The repair

  /** The item put in place of a missing vocabulary list: 愛, "ai", "love". */
  function DefaultItem(): Json {
    Obj(Dicts.Empty<string, Json>()
      .Put("kanji", Str("愛")).Put("romaji", Str("ai")).Put("english", Str("love"))
      .Put("parts", List([Obj(Dicts.Empty<string, Json>().Put("kanji", Str("愛")).Put("romaji", List([Str("ai")])))])))
  }

  /** The romaji a part receives: the item's romaji list, or a list of the
      item's romaji. */
  function PartRomaji(romaji: Json): Json {
    if romaji.List? then romaji else List([romaji])
  }

  /** One part repaired against its item's kanji and romaji. */
  function FixPart(part: Json, kanji: Json, romaji: Json): Result<Json, PyError> {
    if !part.Obj? then Err(TypeError)
    else
      var p := part.fields;
      var p1 := if Filled(p, "kanji") then p else p.Put("kanji", kanji);
      var p2 := if Filled(p1, "romaji") then p1 else p1.Put("romaji", PartRomaji(romaji));
      Ok(Obj(p2))
  }

  /** The first `n` parts repaired, or the first failure. */
  function FixParts(parts: seq<Json>, kanji: Json, romaji: Json, n: nat): Result<seq<Json>, PyError>
    requires n <= |parts|
  {
    if n == 0 then Ok([])
    else
      match FixParts(parts, kanji, romaji, n - 1)
      case Err(e) => Err(e)
      case Ok(done) =>
        match FixPart(parts[n - 1], kanji, romaji)
        case Err(e) => Err(e)
        case Ok(p) => Ok(done + [p])
  }

  /** The part built from the whole word when an item has none: its kanji
      and a one-element romaji list. */
  function WholePart(kanji: Json, romaji: Json): Result<Json, PyError> {
    var first :=
      if romaji.Str? then Ok(romaji)
      else if romaji.List? && romaji.items != [] then Ok(romaji.items[0])
      else if romaji.Obj? then Err(KeyError)
      else Err(TypeError);
    match first
    case Err(e) => Err(e)
    case Ok(r) => Ok(Obj(Dicts.Empty<string, Json>().Put("kanji", kanji).Put("romaji", List([r]))))
  }

  /** The item at 0-based position `i` repaired. */
  function FixItem(i: nat, item: Json): Result<Json, PyError> {
    if !item.Obj? then Err(TypeError) else FillParts(FillFields(i, item.fields))
  }

  /** The kanji, romaji and English fields of the item at 0-based position
      `i` filled in where missing or empty. */
  function FillFields(i: nat, d: Dicts.Dict<string, Json>): Dicts.Dict<string, Json> {
    var number := Text.NatToString(i + 1);
    var d1 := if Filled(d, "kanji") then d else d.Put("kanji", Str("未知" + number));
    var d2 :=
      if Filled(d1, "romaji") then d1
      else if Filled(d1, "kanji") then d1.Put("romaji", d1.vals["kanji"])
      else d1.Put("romaji", Str("michi" + number));
    if Filled(d2, "english") then d2 else d2.Put("english", Str("unknown term " + number))
  }

  /** The item's parts, one built from the whole word when it has none,
      each repaired against the item's kanji and romaji. */
  function FillParts(d: Dicts.Dict<string, Json>): Result<Json, PyError>
    requires "kanji" in d.vals && "romaji" in d.vals
  {
    var hasParts := "parts" in d.vals && d.vals["parts"].List? && d.vals["parts"].items != [];
    var d4 :=
      if hasParts then Ok(d)
      else match WholePart(d.vals["kanji"], d.vals["romaji"])
           case Err(e) => Err(e)
           case Ok(w) => Ok(d.Put("parts", List([w])));
    match d4
    case Err(e) => Err(e)
    case Ok(d4) =>
      var parts := d4.vals["parts"].items;
      match FixParts(parts, d4.vals["kanji"], d4.vals["romaji"], |parts|)
      case Err(e) => Err(e)
      case Ok(fixed) => Ok(Obj(d4.Put("parts", List(fixed))))
  }

  /** The first `n` items repaired, or the first failure. */
  function FixItems(items: seq<Json>, n: nat): Result<seq<Json>, PyError>
    requires n <= |items|
  {
    if n == 0 then Ok([]) else Appended(FixItems(items, n - 1), FixItem(n - 1, items[n - 1]))
  }

  /** The items repaired so far with one more repaired item after them, or
      the first failure. */
  function Appended(done: Result<seq<Json>, PyError>, x: Result<Json, PyError>): Result<seq<Json>, PyError> {
    match done
    case Err(e) => Err(e)
    case Ok(d) =>
      match x
      case Err(e) => Err(e)
      case Ok(v) => Ok(d + [v])
  }

  /** The final answer's vocabulary: the list it holds, or the default
      item when it holds none. */
  function Vocabulary(fa: Dicts.Dict<string, Json>): seq<Json> {
    if "vocabulary" in fa.vals && fa.vals["vocabulary"].List? then fa.vals["vocabulary"].items
    else [DefaultItem()]
  }

  /** The data has a dictionary under "final_answer". */
  predicate HasAnswer(data: Json) {
    data.Obj? && "final_answer" in data.fields.vals && data.fields.vals["final_answer"].Obj?
  }

  /** `fix_vocabulary_format`: anything but a non-empty dictionary with a
      dictionary under "final_answer" is returned as it is. */
  function FixVocabularyFormat(data: Json): Result<Json, PyError> {
    if !Truthy(data) || !HasAnswer(data) then Ok(data)
    else
      var fa := data.fields.vals["final_answer"].fields;
      var items := Vocabulary(fa);
      match FixItems(items, |items|)
      case Err(e) => Err(e)
      case Ok(fixed) =>
        Ok(Obj(data.fields.Put("final_answer", Obj(fa.Put("vocabulary", List(fixed))))))
  }

  // ---------------------------------------------------------------------
  // What a repaired answer looks like

  /** A part with a kanji and a romaji. */
  predicate GoodPart(part: Json) {
    part.Obj? && Filled(part.fields, "kanji") && Filled(part.fields, "romaji")
  }

  /** An item with a kanji, a romaji, an English field and a non-empty list
      of good parts. */
  predicate GoodItem(item: Json) {
    item.Obj? && Filled(item.fields, "kanji") && Filled(item.fields, "romaji")
    && Filled(item.fields, "english")
    && "parts" in item.fields.vals && item.fields.vals["parts"].List?
    && item.fields.vals["parts"].items != []
    && (forall k :: 0 <= k < |item.fields.vals["parts"].items| ==> GoodPart(item.fields.vals["parts"].items[k]))
  }

  /** Every item of the list is good. */
  predicate AllGood(items: seq<Json>) {
    forall k :: 0 <= k < |items| ==> GoodItem(items[k])
  }

  /** A repaired part is good, and what it had is kept. */
  lemma FixPartGood(part: Json, kanji: Json, romaji: Json)
    requires Truthy(kanji) && Truthy(romaji)
    ensures part.Obj? <==> FixPart(part, kanji, romaji).Ok?
    ensures FixPart(part, kanji, romaji).Ok? ==> GoodPart(FixPart(part, kanji, romaji).value)
    ensures GoodPart(part) ==> FixPart(part, kanji, romaji) == Ok(part)
  {
  }

  /** Repairing parts repairs each, in order, and fails on the first part
      that is not a dictionary. */
  lemma {:induction false} FixPartsGood(parts: seq<Json>, kanji: Json, romaji: Json, n: nat)
    requires n <= |parts| && Truthy(kanji) && Truthy(romaji)
    ensures var r := FixParts(parts, kanji, romaji, n);
            (r.Ok? <==> forall k :: 0 <= k < n ==> parts[k].Obj?)
            && (r.Ok? ==> |r.value| == n && forall k :: 0 <= k < n ==> GoodPart(r.value[k]))
            && (r.Err? ==> r.error == TypeError)
            && ((forall k :: 0 <= k < n ==> GoodPart(parts[k])) ==> r == Ok(parts[..n]))
  {
    if n > 0 {
      FixPartsGood(parts, kanji, romaji, n - 1);
      FixPartGood(parts[n - 1], kanji, romaji);
      if (forall k :: 0 <= k < n ==> GoodPart(parts[k])) {
        assert parts[..n - 1] + [parts[n - 1]] == parts[..n];
      }
    }
  }

  /** A repaired item is good; fields it had are kept, and missing ones
      are numbered after the item's 1-based position, the romaji being
      copied from the kanji. */
  lemma FixItemGood(i: nat, item: Json)
    ensures FixItem(i, item).Ok? ==> GoodItem(FixItem(i, item).value)
    ensures !item.Obj? ==> FixItem(i, item) == Err(TypeError)
    ensures FixItem(i, item).Ok? ==>
              var d := item.fields;
              var r := FixItem(i, item).value.fields;
              (Filled(d, "kanji") ==> r.vals["kanji"] == d.vals["kanji"])
              && (!Filled(d, "kanji") ==> r.vals["kanji"] == Str("未知" + Text.NatToString(i + 1)))
              && (Filled(d, "romaji") ==> r.vals["romaji"] == d.vals["romaji"])
              && (!Filled(d, "romaji") ==> r.vals["romaji"] == r.vals["kanji"])
              && (Filled(d, "english") ==> r.vals["english"] == d.vals["english"])
              && (!Filled(d, "english") ==> r.vals["english"] == Str("unknown term " + Text.NatToString(i + 1)))
  {
    if item.Obj? {
      FillFieldsGood(i, item.fields);
      FillPartsGood(FillFields(i, item.fields));
    }
  }

  /** The filled fields are all present and truthy; those the item had are
      kept, the others numbered, the romaji copied from the kanji. */
  lemma FillFieldsGood(i: nat, d: Dicts.Dict<string, Json>)
    ensures var r := FillFields(i, d);
            Filled(r, "kanji") && Filled(r, "romaji") && Filled(r, "english")
            && (Filled(d, "kanji") ==> r.vals["kanji"] == d.vals["kanji"])
            && (!Filled(d, "kanji") ==> r.vals["kanji"] == Str("未知" + Text.NatToString(i + 1)))
            && (Filled(d, "romaji") ==> r.vals["romaji"] == d.vals["romaji"])
            && (!Filled(d, "romaji") ==> r.vals["romaji"] == r.vals["kanji"])
            && (Filled(d, "english") ==> r.vals["english"] == d.vals["english"])
            && (!Filled(d, "english") ==> r.vals["english"] == Str("unknown term " + Text.NatToString(i + 1)))
  {
    var number := Text.NatToString(i + 1);
    var d1 := if Filled(d, "kanji") then d else d.Put("kanji", Str("未知" + number));
    assert Filled(d1, "kanji");
  }

  /** Filling the parts of an item with its fields filled yields a good
      item with the same kanji, romaji and English. */
  lemma FillPartsGood(d: Dicts.Dict<string, Json>)
    requires Filled(d, "kanji") && Filled(d, "romaji") && Filled(d, "english")
    ensures var r := FillParts(d);
            r.Ok? ==> GoodItem(r.value)
                      && r.value.fields.vals["kanji"] == d.vals["kanji"]
                      && r.value.fields.vals["romaji"] == d.vals["romaji"]
                      && r.value.fields.vals["english"] == d.vals["english"]
  {
    var hasParts := "parts" in d.vals && d.vals["parts"].List? && d.vals["parts"].items != [];
    if !hasParts {
      var w := WholePart(d.vals["kanji"], d.vals["romaji"]);
      if w.Ok? {
        FixPartsGood([w.value], d.vals["kanji"], d.vals["romaji"], 1);
      }
    } else {
      var parts := d.vals["parts"].items;
      FixPartsGood(parts, d.vals["kanji"], d.vals["romaji"], |parts|);
    }
  }

  /** A good item is left as it is. */
  lemma FixItemKeepsGood(i: nat, item: Json)
    requires GoodItem(item)
    ensures FixItem(i, item) == Ok(item)
  {
    var d := item.fields;
    assert FillFields(i, d) == d;
    var parts := d.vals["parts"].items;
    FixPartsGood(parts, d.vals["kanji"], d.vals["romaji"], |parts|);
    assert parts[..|parts|] == parts;
    PutPresent(d, "parts");
  }

  /** Writing a key its own value changes nothing, given that the key is
      present. */
  lemma PutPresent(d: Dicts.Dict<string, Json>, k: string)
    requires k in d.vals
    ensures d.Put(k, d.vals[k]) == d
  {
    assert d.vals[k := d.vals[k]] == d.vals;
  }

  /** Repairing items repairs each, in order, into a good item. */
  lemma {:induction false} FixItemsGood(items: seq<Json>, n: nat)
    requires n <= |items|
    ensures var r := FixItems(items, n);
            r.Ok? ==> |r.value| == n && AllGood(r.value)
  {
    if n > 0 {
      FixItemsGood(items, n - 1);
      FixItemAllGood(n - 1, items[n - 1]);
      AppendedGood(FixItems(items, n - 1), FixItem(n - 1, items[n - 1]));
    }
  }

  /** Appending a good item to good items gives good items, one more. */
  lemma AppendedGood(done: Result<seq<Json>, PyError>, x: Result<Json, PyError>)
    requires done.Ok? ==> AllGood(done.value)
    requires x.Ok? ==> AllGood([x.value])
    ensures var r := Appended(done, x);
            r.Ok? ==> done.Ok? && |r.value| == |done.value| + 1 && AllGood(r.value)
  {
    if done.Ok? && x.Ok? {
      AppendGood(done.value, [x.value]);
    }
  }

  /** A repaired item on its own is a list of good items. */
  lemma FixItemAllGood(i: nat, item: Json)
    ensures FixItem(i, item).Ok? ==> AllGood([FixItem(i, item).value])
  {
    FixItemGood(i, item);
  }

  /** Good items appended to good items. */
  lemma {:induction false} AppendGood(done: seq<Json>, more: seq<Json>)
    requires AllGood(done) && AllGood(more)
    ensures AllGood(done + more)
  {
    forall k | 0 <= k < |done| + |more|
      ensures GoodItem((done + more)[k])
    {
      if k < |done| {
        assert (done + more)[k] == done[k];
      } else {
        assert (done + more)[k] == more[k - |done|];
      }
    }
  }

  /** Items that are all good are left as they are. */
  lemma {:induction false} FixItemsKeepGood(items: seq<Json>, n: nat)
    requires n <= |items|
    requires AllGood(items)
    ensures FixItems(items, n) == Ok(items[..n])
  {
    if n > 0 {
      assert items[..n] == items[..n - 1] + [items[n - 1]];
      FixItemsKeepGood(items, n - 1);
      FixItemKeepsGood(n - 1, items[n - 1]);
    }
  }

  /** The default item is already good. */
  lemma DefaultItemGood()
    ensures GoodItem(DefaultItem())
  {
    var part := Obj(Dicts.Empty<string, Json>().Put("kanji", Str("愛")).Put("romaji", List([Str("ai")])));
    assert GoodPart(part);
    assert DefaultItem().fields.vals["parts"].items == [part];
  }

  /** `fix_vocabulary_format` leaves anything without a dictionary answer
      as it is; otherwise every item of the answer's vocabulary, or the
      single default item, comes out good, and a vocabulary item that is
      not a dictionary fails the repair. */
  lemma FixVocabularyFormatGood(data: Json)
    ensures !Truthy(data) || !HasAnswer(data) ==> FixVocabularyFormat(data) == Ok(data)
    ensures var r := FixVocabularyFormat(data);
            Truthy(data) && HasAnswer(data) && r.Ok? ==>
              var fa := data.fields.vals["final_answer"].fields;
              HasAnswer(r.value)
              && var v := r.value.fields.vals["final_answer"].fields.vals["vocabulary"];
                 v.List? && |v.items| == |Vocabulary(fa)|
                 && forall k :: 0 <= k < |v.items| ==> GoodItem(v.items[k])
    ensures HasAnswer(data)
            && (exists k :: 0 <= k < |Vocabulary(data.fields.vals["final_answer"].fields)|
                              && !Vocabulary(data.fields.vals["final_answer"].fields)[k].Obj?)
            ==> FixVocabularyFormat(data).Err?
  {
    assert HasAnswer(data) ==> data.fields.vals != map[];
    if Truthy(data) && HasAnswer(data) {
      var items := Vocabulary(data.fields.vals["final_answer"].fields);
      FixItemsGood(items, |items|);
      if exists k :: 0 <= k < |items| && !items[k].Obj? {
        FixItemsErr(items, |items|);
      }
    }
  }

  /** Repairing items fails when one of them is not a dictionary. */
  lemma {:induction false} FixItemsErr(items: seq<Json>, n: nat)
    requires n <= |items|
    requires exists k :: 0 <= k < n && !items[k].Obj?
    ensures FixItems(items, n).Err?
  {
    if items[n - 1].Obj? {
      FixItemsErr(items, n - 1);
    }
  }

  /** A repaired answer needs no further repair: the repair is idempotent. */
  lemma FixVocabularyFormatIdempotent(data: Json)
    requires FixVocabularyFormat(data).Ok?
    ensures FixVocabularyFormat(FixVocabularyFormat(data).value) == FixVocabularyFormat(data)
  {
    if Truthy(data) && HasAnswer(data) {
      var fa := data.fields.vals["final_answer"].fields;
      var items := Vocabulary(fa);
      FixItemsGood(items, |items|);
      var fixed := FixItems(items, |items|).value;
      assert FixVocabularyFormat(data).value
          == Obj(data.fields.Put("final_answer", Obj(fa.Put("vocabulary", List(fixed)))));
      GoodAnswerKept(data, fixed);
    }
  }

  /** An answer whose vocabulary is a list of good items is left as it is. */
  lemma GoodAnswerKept(data: Json, fixed: seq<Json>)
    requires Truthy(data) && HasAnswer(data) && AllGood(fixed)
    ensures var fa := data.fields.vals["final_answer"].fields;
            var d' := Obj(data.fields.Put("final_answer", Obj(fa.Put("vocabulary", List(fixed)))));
            FixVocabularyFormat(d') == Ok(d')
  {
    var fa := data.fields.vals["final_answer"].fields;
    var fa' := fa.Put("vocabulary", List(fixed));
    var d' := data.fields.Put("final_answer", Obj(fa'));
    assert fixed[..|fixed|] == fixed;
    FixItemsKeepGood(fixed, |fixed|);
    PutPresent(fa', "vocabulary");
    PutPresent(d', "final_answer");
    assert d'.vals["final_answer"] == Obj(fa') && fa'.vals["vocabulary"] == List(fixed);
  }

  // ---------------------------------------------------------------------
  // The repair as its loops run

  /** The parts loop. */
  method FixPartsLoop(parts: seq<Json>, kanji: Json, romaji: Json) returns (r: Result<seq<Json>, PyError>)
    ensures r == FixParts(parts, kanji, romaji, |parts|)
  {
    var done: seq<Json> := [];
    for k := 0 to |parts|
      invariant FixParts(parts, kanji, romaji, k) == Ok(done)
    {
      var part := parts[k];
      if !part.Obj? {
        FixPartsFail(parts, kanji, romaji, k, done);
        return Err(TypeError);
      }
      var p := part.fields;
      if !Filled(p, "kanji") {
        p := p.Put("kanji", kanji);
      }
      if !Filled(p, "romaji") {
        p := p.Put("romaji", PartRomaji(romaji));
      }
      done := done + [Obj(p)];
    }
    return Ok(done);
  }

  /** Once the parts loop fails, the failure stands. */
  lemma {:induction false} FixPartsErrStays(parts: seq<Json>, kanji: Json, romaji: Json, n: nat)
    requires 0 < n <= |parts| && FixParts(parts, kanji, romaji, n).Err?
    ensures FixParts(parts, kanji, romaji, |parts|) == FixParts(parts, kanji, romaji, n)
    decreases |parts| - n
  {
    if n < |parts| {
      FixPartsErrStays(parts, kanji, romaji, n + 1);
    }
  }

  /** A part that is not a dictionary ends the parts loop with TypeError. */
  lemma FixPartsFail(parts: seq<Json>, kanji: Json, romaji: Json, k: nat, done: seq<Json>)
    requires k < |parts| && FixParts(parts, kanji, romaji, k) == Ok(done) && !parts[k].Obj?
    ensures FixParts(parts, kanji, romaji, |parts|) == Err(TypeError)
  {
    FixPartsErrStays(parts, kanji, romaji, k + 1);
  }

  /** Once the items loop fails, the failure stands. */
  lemma {:induction false} FixItemsErrStays(items: seq<Json>, n: nat)
    requires 0 < n <= |items| && FixItems(items, n).Err?
    ensures FixItems(items, |items|) == FixItems(items, n)
    decreases |items| - n
  {
    if n < |items| {
      FixItemsErrStays(items, n + 1);
    }
  }

  /** The repair of one item, its parts loop included. */
  method FixItemBody(i: nat, item: Json) returns (r: Result<Json, PyError>)
    ensures r == FixItem(i, item)
  {
    if !item.Obj? {
      return Err(TypeError);
    }
    var d := FillFieldsIn(i, item.fields);
    r := FillPartsIn(d);
  }

  /** The kanji, romaji and English fields filled one after another. */
  method FillFieldsIn(i: nat, d0: Dicts.Dict<string, Json>) returns (d: Dicts.Dict<string, Json>)
    ensures d == FillFields(i, d0)
  {
    var number := Text.NatToString(i + 1);
    d := d0;
    if !Filled(d, "kanji") {
      d := d.Put("kanji", Str("未知" + number));
    }
    if !Filled(d, "romaji") {
      if Filled(d, "kanji") {
        d := d.Put("romaji", d.vals["kanji"]);
      } else {
        d := d.Put("romaji", Str("michi" + number));
      }
    }
    if !Filled(d, "english") {
      d := d.Put("english", Str("unknown term " + number));
    }
  }

  /** The parts added where missing, then repaired by the parts loop. */
  method FillPartsIn(d0: Dicts.Dict<string, Json>) returns (r: Result<Json, PyError>)
    requires "kanji" in d0.vals && "romaji" in d0.vals
    ensures r == FillParts(d0)
  {
    var d := d0;
    if !("parts" in d.vals && d.vals["parts"].List? && d.vals["parts"].items != []) {
      var w := WholePart(d.vals["kanji"], d.vals["romaji"]);
      if w.Err? {
        return Err(w.error);
      }
      d := d.Put("parts", List([w.value]));
    }
    var fixed := FixPartsLoop(d.vals["parts"].items, d.vals["kanji"], d.vals["romaji"]);
    if fixed.Err? {
      return Err(fixed.error);
    }
    r := Ok(Obj(d.Put("parts", List(fixed.value))));
  }

  /** The loop over the vocabulary items. */
  method FixItemsLoop(items: seq<Json>) returns (r: Result<seq<Json>, PyError>)
    ensures r == FixItems(items, |items|)
  {
    var done: seq<Json> := [];
    for i := 0 to |items|
      invariant FixItems(items, i) == Ok(done)
    {
      var x := FixItemBody(i, items[i]);
      if x.Err? {
        FixItemsFail(items, i, done, x);
        return Err(x.error);
      }
      done := done + [x.value];
    }
    return Ok(done);
  }

  /** An item whose repair fails ends the whole repair with its error. */
  lemma FixItemsFail(items: seq<Json>, i: nat, done: seq<Json>, x: Result<Json, PyError>)
    requires i < |items| && FixItems(items, i) == Ok(done) && x == FixItem(i, items[i]) && x.Err?
    ensures FixItems(items, |items|) == Err(x.error)
  {
    FixItemsErrStays(items, i + 1);
  }

  /** `fix_vocabulary_format`. */
  method FixVocabulary(data: Json) returns (r: Result<Json, PyError>)
    ensures r == FixVocabularyFormat(data)
  {
    if !Truthy(data) || !HasAnswer(data) {
      return Ok(data);
    }
    var fa := data.fields.vals["final_answer"].fields;
    var items := Vocabulary(fa);
    var fixed := FixItemsLoop(items);
    if fixed.Err? {
      return Err(fixed.error);
    }
    r := Ok(Obj(data.fields.Put("final_answer", Obj(fa.Put("vocabulary", List(fixed.value))))));
  }
}
