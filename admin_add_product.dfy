/**
 * The admin "Add New Product" form (src/admin/AddProduct.jsx): a product
 * draft whose top-level fields and `details` group are edited by input
 * name (a dotted name such as `details.color` reaches into a group), the
 * list of feature lines, the image preview and the submit.
 */
module AdminAddProduct {
  import opened Basics

  /** A form value: text, a checkbox, a number, or the list of features. */
  datatype Value = Text(text: string) | Flag(on: bool) | Number(n: int) | Texts(items: seq<string>)

  /** A top-level field of the draft: a plain value or a group of values. */
  datatype Field = Leaf(value: Value) | Group(members: map<string, Value>)

  type Draft = map<string, Field>

  const InitialDetails: map<string, Value> := map[
    "manufacturer" := Text(""), "capacity" := Text(""), "dimensions" := Text(""),
    "material" := Text(""), "color" := Text(""), "features" := Texts([""]),
    "assembly" := Text(""), "rating" := Number(5), "reviews" := Number(0)]

  const InitialDraft: Draft := map[
    "name" := Leaf(Text("")), "price" := Leaf(Text("")), "category" := Leaf(Text("equipment")),
    "description" := Leaf(Text("")), "inStock" := Leaf(Flag(true)), "details" := Group(InitialDetails)]

  /** The position of the first `c` in `s`, or `|s|` when there is none. */
  function IndexOf(s: string, c: char): (i: nat)
    ensures i <= |s|
    ensures i < |s| ==> s[i] == c
    ensures forall k :: 0 <= k < i ==> s[k] != c
    decreases |s|
  {
    if s == [] then 0 else if s[0] == c then 0 else 1 + IndexOf(s[1..], c)
  }

  /** `const [parent, child] = name.split('.')`, for a name holding a dot. */
  function SplitName(name: string): (r: (string, string))
    requires IndexOf(name, '.') < |name|
    ensures |r.0| < |name| && r.0 == name[..|r.0|] && name[|r.0|] == '.'
    ensures |r.0| + 1 + |r.1| <= |name| && r.1 == name[|r.0| + 1..|r.0| + 1 + |r.1|]
    ensures |r.0| + 1 + |r.1| < |name| ==> name[|r.0| + 1 + |r.1|] == '.'
    ensures '.' !in r.0 && '.' !in r.1
  {
    var i := IndexOf(name, '.');
    var rest := name[i + 1..];
    var j := IndexOf(rest, '.');
    (name[..i], rest[..j])
  }

  /** The first dot of `p + "." + s`, when `p` has none, is the one after `p`. */
  lemma {:induction false} IndexOfAfterPrefix(p: string, s: string)
    requires '.' !in p
    ensures IndexOf(p + "." + s, '.') == |p|
    decreases |p|
  {
    if p != [] {
      assert (p + "." + s)[1..] == p[1..] + "." + s;
      IndexOfAfterPrefix(p[1..], s);
    }
  }

  /** The input named: the whole features list, which no input of the form edits. */
  predicate NamesFeatures(name: string)
  {
    name == "details" || (IndexOf(name, '.') < |name| && SplitName(name) == ("details", "features"))
  }

  /** The members of a group; any other field spreads to nothing. */
  function MembersOf(draft: Draft, parent: string): map<string, Value>
  {
    if parent in draft && draft[parent].Group? then draft[parent].members else map[]
  }

  /** handleInputChange: the checkbox state or the text, stored under the
      name, or under `child` in group `parent` for a name `parent.child`. */
  function InputChanged(draft: Draft, name: string, value: string, isCheckbox: bool, checked: bool): (r: Draft)
    ensures var v := if isCheckbox then Flag(checked) else Text(value);
            if IndexOf(name, '.') < |name| then
              var (parent, child) := SplitName(name);
              r == draft[parent := Group(MembersOf(draft, parent)[child := v])]
            else r == draft[name := Leaf(v)]
  {
    var v := if isCheckbox then Flag(checked) else Text(value);
    if IndexOf(name, '.') < |name| then
      var (parent, child) := SplitName(name);
      draft[parent := Group(MembersOf(draft, parent)[child := v])]
    else draft[name := Leaf(v)]
  }

  /** Editing one detail keeps every other detail and every top-level field. */
  lemma DetailEditIsLocal(draft: Draft, child: string, value: string)
    requires '.' !in child
    ensures var name := "details." + child;
            var r := InputChanged(draft, name, value, false, false);
            && r.Keys == draft.Keys + {"details"}
            && (forall k :: k in draft && k != "details" ==> r[k] == draft[k])
            && r["details"] == Group(MembersOf(draft, "details")[child := Text(value)])
  {
    var name := "details." + child;
    IndexOfAfterPrefix("details", child);
    assert name == "details" + "." + child;
    assert name[8..] == child && name[..7] == "details";
    var j := IndexOf(child, '.');
    assert j == |child| && child[..j] == child;
    assert IndexOf(name, '.') == 7 && name[7 + 1..] == child;
    assert SplitName(name) == (name[..7], child[..j]);
  }

  /** Any other input leaves the feature lines alone. */
  lemma InputChangedKeepsFeatures(draft: Draft, name: string, value: string, isCheckbox: bool, checked: bool)
    requires !NamesFeatures(name)
    ensures Features(InputChanged(draft, name, value, isCheckbox, checked)) == Features(draft)
  {
  }

  /** The feature lines of the draft. */
  function Features(draft: Draft): seq<string>
  {
    var d := MembersOf(draft, "details");
    if "features" in d && d["features"].Texts? then d["features"].items else []
  }

  /** The draft with the feature lines replaced. */
  function WithFeatures(draft: Draft, features: seq<string>): (r: Draft)
    ensures Features(r) == features
    ensures forall k :: k in draft && k != "details" ==> k in r && r[k] == draft[k]
    ensures "details" in r && r["details"].Group?
    ensures forall k :: k in MembersOf(draft, "details") && k != "features" ==>
              k in MembersOf(r, "details") && MembersOf(r, "details")[k] == MembersOf(draft, "details")[k]
    ensures forall k :: k in MembersOf(r, "details") ==> k == "features" || k in MembersOf(draft, "details")
  {
    draft["details" := Group(MembersOf(draft, "details")["features" := Texts(features)])]
  }

  /** addFeature: an empty line at the end. */
  function FeatureAdded(features: seq<string>): (r: seq<string>)
    ensures |r| == |features| + 1 && r[..|features|] == features && r[|features|] == ""
  {
    features + [""]
  }

  /** `copy.splice(index, 1)` on a copy: a negative index counts from the end,
      one past the end removes nothing. */
  function Spliced(features: seq<string>, index: int): (r: seq<string>)
    ensures var start := if index < 0 then Max(|features| + index, 0) else Min(index, |features|);
            r == if start < |features| then features[..start] + features[start + 1..] else features
  {
    var start := if index < 0 then Max(|features| + index, 0) else Min(index, |features|);
    if start < |features| then features[..start] + features[start + 1..] else features
  }

  /** Removing the line of a row drops exactly that line and keeps the order of the others. */
  lemma SplicedRow(features: seq<string>, index: int)
    requires 0 <= index < |features|
    ensures |Spliced(features, index)| == |features| - 1
    ensures forall k :: 0 <= k < index ==> Spliced(features, index)[k] == features[k]
    ensures forall k :: index <= k < |features| - 1 ==> Spliced(features, index)[k] == features[k + 1]
  {
  }

  /** Adding a line and removing the last one gives back the list. */
  lemma AddThenRemoveLast(features: seq<string>)
    ensures Spliced(FeatureAdded(features), |features|) == features
  {
    assert FeatureAdded(features)[..|features|] == features;
  }

  /** The remove button is shown only while there is more than one line. */
  predicate ShowsRemove(features: seq<string>)
  {
    |features| > 1
  }

  const SuccessText := "Product added successfully!"

  /** The form state. */
  class Form {
    var product: Draft
    var imagePreview: Option<string>
    var successMessage: string

    /** The form always lists at least one feature line. */
    ghost predicate Valid()
      reads this
    {
      |Features(product)| >= 1
    }

    constructor ()
      ensures product == InitialDraft && imagePreview == None && successMessage == ""
      ensures Valid()
    {
      product := InitialDraft;
      imagePreview := None;
      successMessage := "";
      assert Features(InitialDraft) == [""];
    }

    /** handleInputChange; the form's inputs never name the features list. */
    method HandleInputChange(name: string, value: string, isCheckbox: bool, checked: bool)
      requires Valid()
      requires !NamesFeatures(name)
      modifies this`product
      ensures product == InputChanged(old(product), name, value, isCheckbox, checked)
      ensures Features(product) == Features(old(product)) && Valid()
    {
      InputChangedKeepsFeatures(product, name, value, isCheckbox, checked);
      product := InputChanged(product, name, value, isCheckbox, checked);
    }

    /** handleImageChange: the data URL read from the chosen file, if one was chosen. */
    method HandleImageChange(file: Option<string>)
      modifies this`imagePreview
      ensures file.Some? ==> imagePreview == file
      ensures file.None? ==> imagePreview == old(imagePreview)
    {
      if file.Some? {
        imagePreview := file;
      }
    }

    method AddFeature()
      requires Valid()
      modifies this`product
      ensures product == WithFeatures(old(product), FeatureAdded(Features(old(product))))
      ensures |Features(product)| == |Features(old(product))| + 1 && Valid()
    {
      product := WithFeatures(product, FeatureAdded(Features(product)));
    }

    /** The remove button of row `index`, present only while it is shown. */
    method RemoveFeature(index: int)
      requires Valid() && ShowsRemove(Features(product)) && 0 <= index < |Features(product)|
      modifies this`product
      ensures product == WithFeatures(old(product), Spliced(Features(old(product)), index))
      ensures |Features(product)| == |Features(old(product))| - 1 && Valid()
    {
      product := WithFeatures(product, Spliced(Features(product), index));
    }

    /** handleFeatureChange on the line of row `index`. */
    method HandleFeatureChange(index: int, value: string)
      requires Valid() && 0 <= index < |Features(product)|
      modifies this`product
      ensures product == WithFeatures(old(product), Features(old(product))[index := value])
      ensures Valid()
    {
      product := WithFeatures(product, Features(product)[index := value]);
    }

    /** handleSubmit: shows the success message; the draft is not reset. */
    method HandleSubmit()
      modifies this`successMessage
      ensures successMessage == SuccessText && product == old(product)
    {
      successMessage := SuccessText;
    }

    /** The three-second timer clearing the message. */
    method SuccessTimerFired()
      modifies this`successMessage
      ensures successMessage == ""
    {
      successMessage := "";
    }
  }
}
