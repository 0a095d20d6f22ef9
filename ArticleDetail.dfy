/**
 * The article edit page: the unsaved draft (the fetched article, edited field by field), its
 * handlers, and the multipart body the save button sends.
 */
module ArticleDetail {
  import opened JsText
  import Api

  /** A draft property's value. `Other` is a number, boolean or object, with the text
      `FormData.append` gives it. */
  datatype Value = Null | Undefined | Str(s: string) | Arr(items: seq<string>) | Other(text: string)

  /** A draft object: its properties in key order. */
  type Fields = seq<(string, Value)>

  function Keys(d: Fields): (r: seq<string>)
    ensures |r| == |d| && forall i :: 0 <= i < |d| ==> r[i] == d[i].0
  {
    seq(|d|, i requires 0 <= i < |d| => d[i].0)
  }

  /** `d[key]`, `undefined` when absent. */
  function Get(d: Fields, key: string): Value
    decreases |d|
  {
    if d == [] then Undefined else if d[0].0 == key then d[0].1 else Get(d[1..], key)
  }

  /** `{...d, [key]: v}`: an existing key keeps its place, a new one goes last. */
  function SetField(d: Fields, key: string, v: Value): Fields
    decreases |d|
  {
    if d == [] then [(key, v)]
    else if d[0].0 == key then [(key, v)] + d[1..]
    else [d[0]] + SetField(d[1..], key, v)
  }

  lemma {:induction false} SetFieldGet(d: Fields, key: string, v: Value)
    ensures Get(SetField(d, key, v), key) == v
    decreases |d|
  {
    if d != [] && d[0].0 != key {
      SetFieldGet(d[1..], key, v);
      assert SetField(d, key, v)[1..] == SetField(d[1..], key, v);
    }
  }

  lemma {:induction false} SetFieldOther(d: Fields, key: string, v: Value, j: string)
    requires j != key
    ensures Get(SetField(d, key, v), j) == Get(d, j)
    decreases |d|
  {
    if d == [] {
    } else if d[0].0 == key {
      assert SetField(d, key, v)[1..] == d[1..];
    } else if d[0].0 != j {
      SetFieldOther(d[1..], key, v, j);
      assert SetField(d, key, v)[1..] == SetField(d[1..], key, v);
    }
  }

  lemma KeysCons(x: (string, Value), rest: Fields)
    ensures Keys([x] + rest) == [x.0] + Keys(rest)
  {
  }

  lemma {:induction false} SetFieldKeys(d: Fields, key: string, v: Value)
    ensures Keys(SetField(d, key, v)) == if key in Keys(d) then Keys(d) else Keys(d) + [key]
    decreases |d|
  {
    if d == [] {
      assert Keys(SetField(d, key, v)) == [key];
    } else {
      assert d == [d[0]] + d[1..];
      KeysCons(d[0], d[1..]);
      var ks := Keys(d[1..]);
      if d[0].0 == key {
        KeysCons((key, v), d[1..]);
        assert Keys(d)[0] == key;
      } else {
        SetFieldKeys(d[1..], key, v);
        KeysCons(d[0], SetField(d[1..], key, v));
        assert key in Keys(d) <==> key in ks;
        if key !in ks {
          assert [d[0].0] + (ks + [key]) == ([d[0].0] + ks) + [key];
        }
      }
    }
  }

  /** After setting a key it reads the new value, every other key reads as before, and the key
      list grows by the key at the end exactly when it was absent. */
  lemma SetFieldFacts(d: Fields, key: string, v: Value)
    ensures Get(SetField(d, key, v), key) == v
    ensures forall j :: j != key ==> Get(SetField(d, key, v), j) == Get(d, j)
    ensures Keys(SetField(d, key, v)) == if key in Keys(d) then Keys(d) else Keys(d) + [key]
  {
    SetFieldGet(d, key, v);
    forall j | j != key
      ensures Get(SetField(d, key, v), j) == Get(d, j)
    {
      SetFieldOther(d, key, v, j);
    }
    SetFieldKeys(d, key, v);
  }

  /** `x || []` for a list-valued property. */
  function ListOf(v: Value): seq<string> {
    if v.Arr? then v.items else []
  }

  /** JavaScript truthiness of a value; objects, numbers and booleans count as truthy. */
  predicate Truthy(v: Value) {
    match v
    case Null => false
    case Undefined => false
    case Str(s) => s != ""
    case _ => true
  }

  // ----- the handlers; `None` is a null draft -----

  /** The title and description handlers: no-ops on a null draft. */
  function FieldChanged(draft: Option<Fields>, key: string, text: string): Option<Fields> {
    if draft.None? then None else Some(SetField(draft.value, key, Str(text)))
  }

  /** `handleCategoryChange(value)`: removes every occurrence when selected, appends otherwise. */
  function CategoryToggled(draft: Option<Fields>, value: string): Option<Fields> {
    if draft.None? then None
    else
      var current := ListOf(Get(draft.value, "category"));
      if value in current then Some(SetField(draft.value, "category", Arr(Without(current, value))))
      else Some(SetField(draft.value, "category", Arr(current + [value])))
  }

  /** `handleRemoveCategory` and `handleRemoveTag`: every equal entry of the list goes. */
  function ItemRemoved(draft: Option<Fields>, key: string, item: string): Option<Fields> {
    if draft.None? then None
    else Some(SetField(draft.value, key, Arr(Without(ListOf(Get(draft.value, key)), item))))
  }

  /** Whether `handleAddTag` acts: Enter, a non-blank input and a draft. */
  predicate AddsTag(draft: Option<Fields>, pressed: string, tagInput: string) {
    pressed == "Enter" && Trim(tagInput) != "" && draft.Some?
  }

  /** `handleAddTag`: the draft with the trimmed tag appended. */
  function TagAdded(draft: Option<Fields>, pressed: string, tagInput: string): Option<Fields> {
    if AddsTag(draft, pressed, tagInput) then
      Some(SetField(draft.value, "keywords", Arr(ListOf(Get(draft.value, "keywords")) + [Trim(tagInput)])))
    else draft
  }

  /** `{...unsavedChanges, image_url: …}`, which spreads a null draft as an empty object. */
  function ImageUrlSet(draft: Option<Fields>, v: Value): Fields {
    SetField(if draft.Some? then draft.value else [], "image_url", v)
  }

  /** The categories of `draft` after an edit. */
  function Categories(draft: Option<Fields>): seq<string> {
    if draft.None? then [] else ListOf(Get(draft.value, "category"))
  }

  /** The guarded handlers leave a null draft null. */
  lemma NullDraftGuards(key: string, text: string, value: string, pressed: string, tagInput: string)
    ensures FieldChanged(None, key, text) == None
    ensures CategoryToggled(None, value) == None
    ensures ItemRemoved(None, key, value) == None
    ensures TagAdded(None, pressed, tagInput) == None
  {
  }

  /** A field edit changes that field only. */
  lemma FieldChangedOnly(d: Fields, key: string, text: string)
    ensures Get(FieldChanged(Some(d), key, text).value, key) == Str(text)
    ensures forall j :: j != key ==> Get(FieldChanged(Some(d), key, text).value, j) == Get(d, j)
  {
    SetFieldFacts(d, key, Str(text));
  }

  /** The toggle flips the value's membership, keeps every other category's, and changes no
      other property. */
  lemma CategoryToggleFlips(d: Fields, value: string, x: string)
    ensures value in Categories(CategoryToggled(Some(d), value)) <==> value !in Categories(Some(d))
    ensures x != value ==> (x in Categories(CategoryToggled(Some(d), value)) <==> x in Categories(Some(d)))
    ensures forall j :: j != "category" ==> Get(CategoryToggled(Some(d), value).value, j) == Get(d, j)
  {
    var current := ListOf(Get(d, "category"));
    if value in current {
      SetFieldFacts(d, "category", Arr(Without(current, value)));
      if x != value && x in current {
        var k :| 0 <= k < |current| && current[k] == x;
      }
    } else {
      SetFieldFacts(d, "category", Arr(current + [value]));
    }
  }

  /** Removing an item leaves exactly the other items of the list. */
  lemma ItemRemovedMembers(d: Fields, key: string, item: string, x: string)
    ensures x in ListOf(Get(ItemRemoved(Some(d), key, item).value, key)) <==> x in ListOf(Get(d, key)) && x != item
  {
    var current := ListOf(Get(d, key));
    SetFieldFacts(d, key, Arr(Without(current, item)));
    if x in current && x != item {
      var k :| 0 <= k < |current| && current[k] == x;
    }
  }

  /** An accepted tag is appended trimmed, even when already listed. */
  lemma TagAppended(d: Fields, pressed: string, tagInput: string)
    requires AddsTag(Some(d), pressed, tagInput)
    ensures var tags := ListOf(Get(TagAdded(Some(d), pressed, tagInput).value, "keywords"));
      tags == ListOf(Get(d, "keywords")) + [Trim(tagInput)] && |tags| == |ListOf(Get(d, "keywords"))| + 1
  {
    SetFieldFacts(d, "keywords", Arr(ListOf(Get(d, "keywords")) + [Trim(tagInput)]));
  }

  // ----- the update request -----

  /** A multipart value: text or a file. */
  datatype Part = Text(s: string) | File(name: string)

  /** Properties the loop skips. */
  predicate Skipped(key: string) {
    key == "image_url" || key == "content" || key == "source" || key == "reactions"
  }

  /** The entries one property contributes to the form data. */
  function PropertyEntries(key: string, v: Value): seq<(string, Part)> {
    if Skipped(key) || v.Undefined? || v.Null? then []
    else match v
      case Arr(items) => seq(|items|, k requires 0 <= k < |items| => (key, Text(items[k])))
      case Str(s) => [(key, Text(s))]
      case Other(t) => [(key, Text(t))]
  }

  /** The entries of the `Object.keys(...).forEach` loop, in key order. */
  function PropertiesEntries(d: Fields): seq<(string, Part)>
    decreases |d|
  {
    if d == [] then [] else PropertiesEntries(d[..|d| - 1]) + PropertyEntries(d[|d| - 1].0, d[|d| - 1].1)
  }

  /** The whole body: the properties, then the content if truthy, then the chosen file or, when
      the draft's image is null, an empty `image_url`. */
  function UpdateBody(d: Fields, file: Option<string>): seq<(string, Part)> {
    var content := Get(d, "content");
    PropertiesEntries(d)
    + (if Truthy(content) && content.Str? then [("content", Text(content.s))]
       else if Truthy(content) && content.Other? then [("content", Text(content.text))]
       else if Truthy(content) && content.Arr? then [("content", Text(Join(content.items, ",")))]
       else [])
    + (if file.Some? then [("image", File(file.value))]
       else if Get(d, "image_url") == Null then [("image_url", Text(""))]
       else [])
  }

  /** The property loop of the update mutation. */
  method AppendProperties(d: Fields) returns (body: seq<(string, Part)>)
    ensures body == PropertiesEntries(d)
  {
    body := [];
    var i := 0;
    while i < |d|
      invariant i <= |d|
      invariant body == PropertiesEntries(d[..i])
    {
      var key := d[i].0;
      var v := d[i].1;
      assert d[..i + 1][..i] == d[..i];
      if !Skipped(key) && !v.Undefined? && !v.Null? {
        if v.Arr? {
          body := AppendItems(body, key, v.items);
        } else if v.Str? {
          body := body + [(key, Text(v.s))];
        } else {
          body := body + [(key, Text(v.text))];
        }
      }
      i := i + 1;
    }
    assert d[..i] == d;
  }

  /** `updatedArticle[key].forEach(item => formData.append(key, item))` */
  method AppendItems(body: seq<(string, Part)>, key: string, items: seq<string>) returns (r: seq<(string, Part)>)
    requires !Skipped(key)
    ensures r == body + PropertyEntries(key, Arr(items))
  {
    r := body;
    var j := 0;
    while j < |items|
      invariant j <= |items|
      invariant r == body + PropertyEntries(key, Arr(items[..j]))
    {
      r := r + [(key, Text(items[j]))];
      j := j + 1;
    }
    assert items[..j] == items;
  }

  /** No skipped key, and no null or undefined property, reaches the loop's entries; each entry
      carries the key of a property of the draft. */
  lemma {:induction false} PropertiesEntriesKeys(d: Fields, n: nat)
    requires n < |PropertiesEntries(d)|
    ensures !Skipped(PropertiesEntries(d)[n].0) && PropertiesEntries(d)[n].1.Text?
    ensures exists j :: 0 <= j < |d| && d[j].0 == PropertiesEntries(d)[n].0 && !d[j].1.Null? && !d[j].1.Undefined?
    decreases |d|
  {
    var init := d[..|d| - 1];
    var last := d[|d| - 1];
    if n < |PropertiesEntries(init)| {
      PropertiesEntriesKeys(init, n);
      var j :| 0 <= j < |init| && init[j].0 == PropertiesEntries(init)[n].0 && !init[j].1.Null? && !init[j].1.Undefined?;
      assert d[j] == init[j];
    } else {
      var e := PropertiesEntries(d)[n];
      assert e in PropertyEntries(last.0, last.1);
      assert d[|d| - 1] == last;
    }
  }

  /** After the properties comes at most one content entry and exactly one image entry when a
      file is chosen; the image is cleared only when no file is chosen and the draft's image is
      null (an absent image is not cleared). */
  lemma UpdateBodyTail(d: Fields, file: Option<string>)
    ensures var b := UpdateBody(d, file); var n := |PropertiesEntries(d)|;
      && |b| >= n && b[..n] == PropertiesEntries(d)
      && (file.Some? ==> b[|b| - 1] == ("image", File(file.value)))
      && (("image_url", Text("")) in b[n..] <==> file.None? && Get(d, "image_url") == Null)
      && (|b| == n <==> !Truthy(Get(d, "content")) && file.None? && Get(d, "image_url") != Null)
  {
    var b := UpdateBody(d, file);
    var n := |PropertiesEntries(d)|;
    var content := Get(d, "content");
    var c: seq<(string, Part)> :=
      if Truthy(content) && content.Str? then [("content", Text(content.s))]
      else if Truthy(content) && content.Other? then [("content", Text(content.text))]
      else if Truthy(content) && content.Arr? then [("content", Text(Join(content.items, ",")))]
      else [];
    var img: seq<(string, Part)> :=
      if file.Some? then [("image", File(file.value))]
      else if Get(d, "image_url") == Null then [("image_url", Text(""))]
      else [];
    assert b == PropertiesEntries(d) + c + img;
    ThreeParts(PropertiesEntries(d), c, img);
    assert ("image_url", Text("")) !in c by {
      assert "content"[0] != "image_url"[0];
    }
  }

  /** The first and last parts of a three-part sequence. */
  lemma ThreeParts<T>(p: seq<T>, c: seq<T>, img: seq<T>)
    ensures (p + c + img)[..|p|] == p && (p + c + img)[|p|..] == c + img
    ensures img != [] ==> (p + c + img)[|p + c + img| - 1] == img[|img| - 1]
  {
    assert (p + c + img)[..|p|] == p;
    assert (p + c + img)[|p|..] == c + img;
  }

  // ----- fetching the article and settling the update -----

  /** The error `fetchPost(id)` throws when the body has no truthy `ok`. */
  const FetchFailure := "Network response was not ok"

  /** The error the update mutation throws when the body has no truthy `ok`. */
  const UpdateFailure := "Failed to update article"

  /** `fetchPost(id)` reading `data` of the parsed body `apiClient` returns. */
  function FetchPost(reply: Api.Outcome<Api.Body<Option<Fields>>>): (r: Api.Outcome<Option<Fields>>)
    ensures r.Returned? <==> reply.Returned? && reply.value.Object?
    ensures r.Returned? ==> r.value == reply.value.content
    ensures reply.Threw? ==> r.failure == reply.failure
  {
    match reply
    case Threw(f) => Api.Threw(f)
    case Returned(Null) => Api.Threw(Api.TypeError)
    case Returned(Object(d, _)) => Api.Returned(d)
  }

  /** The query's `data`: the fetched article, undefined while the query has failed. */
  function QueryData(o: Api.Outcome<Option<Fields>>): (r: Option<Fields>)
    ensures o.Threw? ==> r.None?
    ensures o.Returned? ==> r == o.value
  {
    if o.Returned? then o.value else None
  }

  /** On a successful load the code as written leaves the page without a draft and reports
      the update of a saved article as failed, while reading the parsed body loads the draft. */
  lemma LoadAndUpdateLost(d: Fields, ok: bool)
    ensures QueryData(Api.GuardedJson(Api.ApiClient(200, "OK", Api.Object(Some(d), ok)), FetchFailure)) == None
    ensures QueryData(FetchPost(Api.ApiClient(200, "OK", Api.Object(Some(d), ok)))) == Some(d)
    ensures Api.GuardedJson<Fields, Fields>(Api.ApiClient(200, "OK", Api.Object(d, ok)), UpdateFailure).Threw?
  {
  }

  /** A `toast`: `toast.success(text)`, or `toast.error` with "Failed to update article: "
      and the failure's message. */
  datatype Toast = Succeeded(text: string) | Failed(failure: Api.Failure)

  /** The page's state: the draft, the tag input, and the chosen image file. */
  class ArticleDetailPage {
    var draft: Option<Fields>
    var tagInput: string
    var selectedImageFile: Option<string>

    constructor()
      ensures draft == None && tagInput == "" && selectedImageFile == None
    {
      draft := None;
      tagInput := "";
      selectedImageFile := None;
    }

    /** The initialising effect: a loaded article becomes the draft when there is none yet. */
    method ArticleLoaded(article: Option<Fields>)
      modifies this
      ensures draft == if article.Some? && old(draft).None? then article else old(draft)
      ensures tagInput == old(tagInput) && selectedImageFile == old(selectedImageFile)
    {
      if article.Some? && draft.None? {
        draft := article;
      }
    }

    method TitleChange(text: string)
      modifies this
      ensures draft == FieldChanged(old(draft), "title", text)
      ensures tagInput == old(tagInput) && selectedImageFile == old(selectedImageFile)
    {
      if draft.None? {
        return;
      }
      draft := Some(SetField(draft.value, "title", Str(text)));
    }

    method DescriptionChange(text: string)
      modifies this
      ensures draft == FieldChanged(old(draft), "description", text)
      ensures tagInput == old(tagInput) && selectedImageFile == old(selectedImageFile)
    {
      if draft.None? {
        return;
      }
      draft := Some(SetField(draft.value, "description", Str(text)));
    }

    /** The content editor's handler, which has no null guard. */
    method ContentChange(text: string)
      modifies this
      ensures draft == Some(SetField(if old(draft).Some? then old(draft).value else [], "content", Str(text)))
      ensures tagInput == old(tagInput) && selectedImageFile == old(selectedImageFile)
    {
      draft := Some(SetField(if draft.Some? then draft.value else [], "content", Str(text)));
    }

    method CategoryChange(value: string)
      modifies this
      ensures draft == CategoryToggled(old(draft), value)
      ensures tagInput == old(tagInput) && selectedImageFile == old(selectedImageFile)
    {
      if draft.None? {
        return;
      }
      var current := ListOf(Get(draft.value, "category"));
      if value in current {
        draft := Some(SetField(draft.value, "category", Arr(Without(current, value))));
      } else {
        draft := Some(SetField(draft.value, "category", Arr(current + [value])));
      }
    }

    method RemoveCategory(value: string)
      modifies this
      ensures draft == ItemRemoved(old(draft), "category", value)
      ensures tagInput == old(tagInput) && selectedImageFile == old(selectedImageFile)
    {
      if draft.None? {
        return;
      }
      draft := Some(SetField(draft.value, "category", Arr(Without(ListOf(Get(draft.value, "category")), value))));
    }

    /** `handleAddTag` on a key press; the input is cleared only when the tag is added. */
    method AddTag(pressed: string)
      modifies this
      ensures draft == TagAdded(old(draft), pressed, old(tagInput))
      ensures tagInput == if AddsTag(old(draft), pressed, old(tagInput)) then "" else old(tagInput)
      ensures selectedImageFile == old(selectedImageFile)
    {
      if pressed == "Enter" && Trim(tagInput) != "" && draft.Some? {
        var newTags := ListOf(Get(draft.value, "keywords")) + [Trim(tagInput)];
        draft := Some(SetField(draft.value, "keywords", Arr(newTags)));
        tagInput := "";
      }
    }

    method RemoveTag(tag: string)
      modifies this
      ensures draft == ItemRemoved(old(draft), "keywords", tag)
      ensures tagInput == old(tagInput) && selectedImageFile == old(selectedImageFile)
    {
      if draft.None? {
        return;
      }
      draft := Some(SetField(draft.value, "keywords", Arr(Without(ListOf(Get(draft.value, "keywords")), tag))));
    }

    /** `handleImageFileSelect(file)`: a null file marks the draft's image as null. */
    method ImageFileSelect(file: Option<string>)
      modifies this
      ensures selectedImageFile == file
      ensures draft == if file.Some? then old(draft) else Some(ImageUrlSet(old(draft), Null))
      ensures tagInput == old(tagInput)
    {
      selectedImageFile := file;
      if file.None? {
        draft := Some(ImageUrlSet(draft, Null));
      }
    }

    /** `handleImageReset`: the file is dropped and the article's own image (or null) restored. */
    method ImageReset(articleImageUrl: Value)
      modifies this
      ensures selectedImageFile == None
      ensures draft == Some(ImageUrlSet(old(draft), if Truthy(articleImageUrl) then articleImageUrl else Null))
      ensures tagInput == old(tagInput)
    {
      selectedImageFile := None;
      draft := Some(ImageUrlSet(draft, if Truthy(articleImageUrl) then articleImageUrl else Null));
    }

    /** `saveChanges`: the body sent, or `None` when the draft is null. */
    method SaveChanges() returns (body: Option<seq<(string, Part)>>)
      ensures body.None? <==> draft.None?
      ensures body.Some? ==> body.value == UpdateBody(draft.value, selectedImageFile)
    {
      if draft.None? {
        return None;
      }
      var entries := AppendProperties(draft.value);
      var content := Get(draft.value, "content");
      if Truthy(content) {
        var text := if content.Str? then content.s else if content.Other? then content.text else Join(content.items, ",");
        entries := entries + [("content", Text(text))];
      }
      if selectedImageFile.Some? {
        entries := entries + [("image", File(selectedImageFile.value))];
      } else if Get(draft.value, "image_url") == Null {
        entries := entries + [("image_url", Text(""))];
      }
      body := Some(entries);
    }

    /** The article query settling as `reply`, as written: the effect never sees an article,
        so the page keeps whatever draft it had (none, on a fresh page). */
    method ArticleQuerySettledAsWritten(reply: Api.Outcome<Api.Body<Option<Fields>>>)
      modifies this
      ensures draft == old(draft) && tagInput == old(tagInput) && selectedImageFile == old(selectedImageFile)
    {
      ArticleLoaded(QueryData(Api.GuardedJson(reply, FetchFailure)));
    }

    /** The article query settling as `reply` when the parsed body is read: a loaded article
        becomes the draft when there is none yet. */
    method ArticleQuerySettled(reply: Api.Outcome<Api.Body<Option<Fields>>>)
      modifies this
      ensures var loaded := QueryData(FetchPost(reply));
        draft == if loaded.Some? && old(draft).None? then loaded else old(draft)
      ensures reply.Returned? && reply.value.Object? && reply.value.content.Some? && old(draft).None? ==>
        draft == reply.value.content
      ensures tagInput == old(tagInput) && selectedImageFile == old(selectedImageFile)
    {
      ArticleLoaded(QueryData(FetchPost(reply)));
    }

    /** The update mutation settling as `reply`, as written: `onError` always runs, so the
        toast reports a failure and the chosen file is kept. */
    method UpdateSettledAsWritten<T>(reply: Api.Outcome<Api.Body<T>>) returns (toast: Toast)
      modifies this
      ensures toast.Failed?
      ensures selectedImageFile == old(selectedImageFile) && draft == old(draft) && tagInput == old(tagInput)
    {
      match Api.GuardedJson<T, T>(reply, UpdateFailure)
      case Threw(f) =>
        toast := Failed(f);
    }

    /** The update mutation settling as `reply` when `mutationFn` returns what `apiClient`
        returned: success drops
        the chosen file and says so; a failed request reports its failure and keeps the file. */
    method UpdateSettled<T>(reply: Api.Outcome<Api.Body<T>>) returns (toast: Toast)
      modifies this
      ensures toast.Succeeded? <==> reply.Returned?
      ensures toast.Succeeded? ==> toast.text == "Article updated successfully!" && selectedImageFile == None
      ensures toast.Failed? ==> toast.failure == reply.failure && selectedImageFile == old(selectedImageFile)
      ensures draft == old(draft) && tagInput == old(tagInput)
    {
      if reply.Returned? {
        UpdateSucceeded();
        toast := Succeeded("Article updated successfully!");
      } else {
        toast := Failed(reply.failure);
      }
    }

    /** A successful update drops the chosen file. */
    method UpdateSucceeded()
      modifies this
      ensures selectedImageFile == None && draft == old(draft) && tagInput == old(tagInput)
    {
      selectedImageFile := None;
    }
  }
}
