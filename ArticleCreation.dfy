/**
 * The article creation page: the form's validator, the keyword list, the fields filled in
 * from a parsed article URL, and the multipart request the create button sends.
 */
module ArticleCreation {
  import opened JsText
  import opened Api

  /** The form; `image` is the chosen file, named. */
  datatype Form = Form(
    title: string, link: string, description: string, content: string, author: string,
    category: string, language: string, country: string, keywords: seq<string>,
    image: Option<string>, imagePreview: string, topFeature: bool,
    source_name: string, source_url: string, source_icon: string, source_id: string)

  const EmptyForm := Form("", "", "", "", "", "", "", "", [], None, "", false, "", "", "", "")

  // ----- validation -----

  /** `checkFormValues`: the message of the first missing field, `None` when none is missing. */
  function Validation(f: Form): Option<string> {
    if f.title == "" then Some("Please enter a title.")
    else if f.link == "" then Some("Please enter a link.")
    else if f.description == "" then Some("Please enter a description.")
    else if f.content == "" then Some("Please enter content.")
    else if f.author == "" then Some("Please enter an author.")
    else if f.category == "" then Some("Please select a category.")
    else if f.language == "" then Some("Please select a language.")
    else if f.country == "" then Some("Please select a country.")
    else if |f.keywords| == 0 then Some("Please enter at least one keyword.")
    else None
  }

  /** The checked fields in checking order, each with whether it is missing and its message. */
  function Checks(f: Form): (r: seq<(bool, string)>)
    ensures |r| == 9
  {
    [ (f.title == "", "Please enter a title."),
      (f.link == "", "Please enter a link."),
      (f.description == "", "Please enter a description."),
      (f.content == "", "Please enter content."),
      (f.author == "", "Please enter an author."),
      (f.category == "", "Please select a category."),
      (f.language == "", "Please select a language."),
      (f.country == "", "Please select a country."),
      (|f.keywords| == 0, "Please enter at least one keyword.") ]
  }

  /** The validator passes exactly when no checked field is missing, and otherwise reports the
      message of the first missing one. */
  lemma ValidationOrder(f: Form)
    ensures Validation(f).None? <==> forall k :: 0 <= k < 9 ==> !Checks(f)[k].0
    ensures forall k :: 0 <= k < 9 && Checks(f)[k].0 && (forall j :: 0 <= j < k ==> !Checks(f)[j].0) ==>
      Validation(f) == Some(Checks(f)[k].1)
  {
    var c := Checks(f);
    forall k | 0 <= k < 9 && c[k].0 && (forall j :: 0 <= j < k ==> !c[j].0)
      ensures Validation(f) == Some(c[k].1)
    {
      if k > 0 { assert !c[0].0; }
      if k > 1 { assert !c[1].0; }
      if k > 2 { assert !c[2].0; }
      if k > 3 { assert !c[3].0; }
      if k > 4 { assert !c[4].0; }
      if k > 5 { assert !c[5].0; }
      if k > 6 { assert !c[6].0; }
      if k > 7 { assert !c[7].0; }
    }
    if Validation(f).None? {
      assert forall k :: 0 <= k < 9 ==> !c[k].0;
    } else {
      assert c[0].0 || c[1].0 || c[2].0 || c[3].0 || c[4].0 || c[5].0 || c[6].0 || c[7].0 || c[8].0;
    }
  }

  // ----- keywords -----

  /** `addKeyword`: a non-empty keyword not yet listed is appended. */
  function AddedKeyword(keywords: seq<string>, keyword: string): seq<string> {
    if keyword != "" && keyword !in keywords then keywords + [keyword] else keywords
  }

  /** `removeKeyword`: every equal entry goes. */
  function RemovedKeyword(keywords: seq<string>, keyword: string): seq<string> {
    Without(keywords, keyword)
  }

  /** The keyword list never holds a value twice, and after adding a non-empty keyword it is listed. */
  lemma AddKeywordKeepsNoDuplicates(keywords: seq<string>, keyword: string)
    requires NoDuplicates(keywords)
    ensures NoDuplicates(AddedKeyword(keywords, keyword))
    ensures keyword != "" ==> keyword in AddedKeyword(keywords, keyword)
  {
  }

  /** A keyword is listed after removal exactly when it was listed and is not the removed one. */
  lemma RemoveKeywordMembers(keywords: seq<string>, keyword: string, x: string)
    ensures x in RemovedKeyword(keywords, keyword) <==> x in keywords && x != keyword
  {
    if x in keywords && x != keyword {
      var k :| 0 <= k < |keywords| && keywords[k] == x;
    }
  }

  /** Removing a keyword just added gives the list back. */
  lemma AddThenRemove(keywords: seq<string>, keyword: string)
    requires keyword !in keywords
    ensures RemovedKeyword(AddedKeyword(keywords, keyword), keyword) == keywords
  {
    if keyword == "" {
      WithoutAbsent(keywords, keyword);
    } else {
      WithoutAppended(keywords, keyword);
    }
  }

  // ----- autofill -----

  /** `extractDomain` on the URL's hostname: the second-to-last `.`-label, or the only one. */
  function ExtractDomain(hostname: string): (r: string)
    ensures '.' !in r
  {
    var parts := Split(hostname, '.');
    if |parts| > 1 then parts[|parts| - 2] else parts[0]
  }

  /** A hostname made of labels gives its second-to-last label, or its only one. */
  lemma ExtractDomainOfLabels(labels: seq<string>)
    requires labels != []
    requires forall i :: 0 <= i < |labels| ==> '.' !in labels[i]
    ensures ExtractDomain(Join(labels, ".")) == if |labels| > 1 then labels[|labels| - 2] else labels[0]
  {
    SplitJoin(labels, '.');
  }

  /** What the parse endpoint answers with; missing values are `None`. */
  datatype Parsed = Parsed(title: string, excerpt: string, byline: Option<string>, content: string, siteName: Option<string>)

  /** The fields `fetchArticleData` returns. */
  datatype Fetched = Fetched(
    title: string, description: string, author: string, link: string, content: string,
    source_id: string, source_name: string, source_url: string, source_icon: string)

  /** A JavaScript string that is neither missing nor empty. */
  predicate Truthy(s: Option<string>) {
    s.Some? && s.value != ""
  }

  /** `fetchArticleData(url)` once the parse request has answered `a`; `hostname` is the URL's host. */
  function FetchedData(url: string, hostname: string, a: Parsed): Fetched {
    Fetched(
      a.title, a.excerpt, if Truthy(a.byline) then a.byline.value else "", url, a.content,
      ExtractDomain(hostname),
      if Truthy(a.siteName) then a.siteName.value else ExtractDomain(hostname),
      "https://" + hostname,
      "https://www.google.com/s2/favicons?domain=" + hostname + "&sz=64")
  }

  /** `{...prev, ...data}` */
  function Autofilled(f: Form, d: Fetched): Form {
    f.(title := d.title, description := d.description, author := d.author, link := d.link,
       content := d.content, source_id := d.source_id, source_name := d.source_name,
       source_url := d.source_url, source_icon := d.source_icon)
  }

  /** `fetchArticleData(url)` as written, once `apiClient` has settled as `reply`: the code
      calls `.json()` on the parsed body `apiClient` already returned, so it never returns. */
  function FetchArticleDataAsWritten(url: string, hostname: string, reply: Outcome<Body<Parsed>>): (r: Outcome<Fetched>)
    ensures r.Threw?
    ensures reply.Threw? ==> r.failure == reply.failure
    ensures reply.Returned? ==> r.failure == TypeError
  {
    match reply
    case Threw(f) => Threw(f)
    case Returned(b) =>
      match JsonOfBody(b)
      case Threw(f) => Threw(f)
  }

  /** `fetchArticleData(url)` reading the parsed body `apiClient` returns: a parsed article
      gives its fields, a failed request rethrows, and a `null` body fails on `article.title`. */
  function FetchArticleData(url: string, hostname: string, reply: Outcome<Body<Parsed>>): (r: Outcome<Fetched>)
    ensures r.Returned? <==> reply.Returned? && reply.value.Object?
    ensures r.Returned? ==> r.value == FetchedData(url, hostname, reply.value.content)
    ensures reply.Threw? ==> r.failure == reply.failure
  {
    match reply
    case Threw(f) => Threw(f)
    case Returned(Null) => Threw(TypeError)
    case Returned(Object(a, _)) => Returned(FetchedData(url, hostname, a))
  }

  /** Whatever the parse endpoint answers, the code as written never hands the article on,
      while reading the body `apiClient` returns hands on exactly the article parsed. */
  lemma AutofillLost(url: string, hostname: string, a: Parsed, ok: bool)
    ensures forall status: int, text: string, b: Body<Parsed> ::
      FetchArticleDataAsWritten(url, hostname, ApiClient(status, text, b)).Threw?
    ensures FetchArticleDataAsWritten(url, hostname, ApiClient(200, "OK", Object(a, ok))).failure == TypeError
    ensures FetchArticleData(url, hostname, ApiClient(200, "OK", Object(a, ok))) == Returned(FetchedData(url, hostname, a))
  {
  }

  /** Autofill leaves the author empty without a byline, names the source by the site name or
      else by the domain, points the source at the host over https, and keeps the fields the
      user chose (keywords, selects, image, feature flag). */
  lemma AutofillFacts(f: Form, url: string, hostname: string, a: Parsed)
    ensures var g := Autofilled(f, FetchedData(url, hostname, a));
      && (g.author == "" <==> !Truthy(a.byline))
      && (g.source_name == if Truthy(a.siteName) then a.siteName.value else ExtractDomain(hostname))
      && g.source_id == ExtractDomain(hostname) && '.' !in g.source_id
      && StartsWith(g.source_url, "https://") && g.source_url[8..] == hostname
      && g.link == url && g.title == a.title && g.description == a.excerpt
      && g.keywords == f.keywords && g.category == f.category && g.language == f.language
      && g.country == f.country && g.image == f.image && g.topFeature == f.topFeature
  {
  }

  // ----- the create request -----

  /** A multipart value: text or a file. */
  datatype Part = Text(s: string) | File(name: string)

  /** `String(b)` */
  function BoolString(b: bool): string {
    if b then "true" else "false"
  }

  /** The form data `handleCreateArticle` appends, in order. */
  function Payload(f: Form): seq<(string, Part)> {
    [ ("title", Text(f.title)), ("description", Text(f.description)), ("author", Text(f.author)),
      ("link", Text(f.link)), ("content", Text(f.content)), ("keywords", Text(Join(f.keywords, ","))),
      ("country", Text(f.country)), ("language", Text(f.language)), ("category", Text(f.category)),
      ("topFeature", Text(BoolString(f.topFeature))), ("source_name", Text(f.source_name)),
      ("source_url", Text(f.source_url)), ("source_icon", Text(f.source_icon)), ("source_id", Text(f.source_id)) ]
    + (if f.image.Some? then [("image", File(f.image.value))] else [])
  }

  /** The create attempt: the validator's message and no request, or the form data to send. */
  function CreateRequest(f: Form): (r: Result<seq<(string, Part)>>)
    ensures r.Error? <==> Validation(f).Some?
    ensures r.Error? ==> r.message == Validation(f).value
    ensures r.Ok? ==> r.value == Payload(f)
  {
    match Validation(f)
    case Some(m) => Error(m)
    case None => Ok(Payload(f))
  }

  /** The request has fourteen text fields and a fifteenth file part exactly when an image was
      chosen; the keywords travel comma-joined and are recovered by splitting when none holds a
      comma; the feature flag travels as `true` or `false`. */
  lemma PayloadFields(f: Form)
    ensures var p := Payload(f);
      && (|p| == 15 <==> f.image.Some?) && (|p| == 14 <==> f.image.None?)
      && (f.image.Some? ==> p[14] == ("image", File(f.image.value)))
      && (forall k :: 0 <= k < 14 ==> p[k].1.Text?)
      && p[5].0 == "keywords" && p[9].0 == "topFeature"
      && (p[9].1.s == "true" <==> f.topFeature)
      && (p[9].1.s == "false" <==> !f.topFeature)
    ensures f.keywords != [] && (forall i :: 0 <= i < |f.keywords| ==> ',' !in f.keywords[i]) ==>
      Split(Payload(f)[5].1.s, ',') == f.keywords
  {
    assert "true"[0] != "false"[0];
    if f.keywords != [] && (forall i :: 0 <= i < |f.keywords| ==> ',' !in f.keywords[i]) {
      SplitJoin(f.keywords, ',');
    }
  }

  /** Where the page navigates once the create request has settled as `reply`, as written:
      `.json()` on the parsed body throws, so every answer lands in the catch. */
  function CreatedAsWritten(reply: Outcome<Body<string>>): (r: Outcome<string>)
    ensures r.Threw?
    ensures reply.Returned? ==> r.failure == TypeError
  {
    match reply
    case Threw(f) => Threw(f)
    case Returned(b) =>
      match JsonOfBody(b)
      case Threw(f) => Threw(f)
  }

  /** Where the page navigates when it reads the id `apiClient` returns: `/articles/<id>` for
      an answered request (`null` prints as `null`), nowhere for a failed one. */
  function Created(reply: Outcome<Body<string>>): (r: Outcome<string>)
    ensures r.Returned? <==> reply.Returned?
    ensures r.Returned? ==> StartsWith(r.value, "/articles/")
    ensures r.Returned? && reply.value.Object? ==> r.value[10..] == reply.value.content
    ensures reply.Threw? ==> r.failure == reply.failure
  {
    match reply
    case Threw(f) => Threw(f)
    case Returned(Null) => Returned("/articles/null")
    case Returned(Object(id, _)) => Returned("/articles/" + id)
  }

  /** A created article is never opened as written, and is opened under its id when the
      returned body is read as the id. */
  lemma CreatedArticleLost(id: string, ok: bool)
    ensures CreatedAsWritten(ApiClient(201, "Created", Object(id, ok))) == Threw(TypeError)
    ensures Created(ApiClient(201, "Created", Object(id, ok))) == Returned("/articles/" + id)
  {
  }

  /** The page's state. */
  class ArticleCreationPage {
    var form: Form
    var error: Option<string>
    var currentKeyword: string
    var urlInput: string
    var isFilled: bool

    constructor()
      ensures form == EmptyForm && error == None && currentKeyword == "" && urlInput == "" && !isFilled
    {
      form := EmptyForm;
      error := None;
      currentKeyword := "";
      urlInput := "";
      isFilled := false;
    }

    /** `addKeyword`: the input is cleared only when the keyword was added. */
    method AddKeyword()
      modifies this
      ensures form == old(form).(keywords := AddedKeyword(old(form).keywords, old(currentKeyword)))
      ensures currentKeyword == if old(currentKeyword) != "" && old(currentKeyword) !in old(form).keywords then "" else old(currentKeyword)
      ensures error == old(error) && urlInput == old(urlInput) && isFilled == old(isFilled)
    {
      if currentKeyword != "" && currentKeyword !in form.keywords {
        form := form.(keywords := form.keywords + [currentKeyword]);
        currentKeyword := "";
      }
    }

    /** `removeKeyword(keyword)` */
    method RemoveKeyword(keyword: string)
      modifies this
      ensures form == old(form).(keywords := RemovedKeyword(old(form).keywords, keyword))
      ensures error == old(error) && currentKeyword == old(currentKeyword) && urlInput == old(urlInput) && isFilled == old(isFilled)
    {
      form := form.(keywords := Without(form.keywords, keyword));
    }

    /** `checkFormValues`: the error shows the first missing field's message, or is cleared. */
    method CheckFormValues() returns (ok: bool)
      modifies this
      ensures error == Validation(form) && (ok <==> error.None?)
      ensures form == old(form) && currentKeyword == old(currentKeyword) && urlInput == old(urlInput) && isFilled == old(isFilled)
    {
      error := Validation(form);
      ok := error.None?;
    }

    /** `handleCreateArticle` up to the request it sends, if any. */
    method HandleCreateArticle() returns (request: Option<seq<(string, Part)>>)
      modifies this
      ensures request.None? <==> Validation(form).Some?
      ensures request.Some? ==> request.value == Payload(form)
      ensures error == Validation(form) && form == old(form)
    {
      var ok := CheckFormValues();
      if !ok {
        return None;
      }
      request := Some(Payload(form));
    }

    /** `handleUrlSubmit` as written, once the parse request for the entered URL has settled
        as `reply`: the fetch always throws, the catch only logs, and nothing changes. */
    method HandleUrlSubmitAsWritten(hostname: string, reply: Outcome<Body<Parsed>>)
      modifies this
      ensures form == old(form) && urlInput == old(urlInput) && isFilled == old(isFilled)
      ensures error == old(error) && currentKeyword == old(currentKeyword)
    {
      match FetchArticleDataAsWritten(urlInput, hostname, reply)
      case Threw(_) =>
    }

    /** `handleUrlSubmit` reading the parsed body: a parsed article fills the form, clears the
        URL input and marks the form filled; a failure changes nothing. */
    method HandleUrlSubmit(hostname: string, reply: Outcome<Body<Parsed>>)
      modifies this
      ensures reply.Returned? && reply.value.Object? ==>
        form == Autofilled(old(form), FetchedData(old(urlInput), hostname, reply.value.content)) &&
        urlInput == "" && isFilled
      ensures !(reply.Returned? && reply.value.Object?) ==>
        form == old(form) && urlInput == old(urlInput) && isFilled == old(isFilled)
      ensures error == old(error) && currentKeyword == old(currentKeyword)
    {
      var data := FetchArticleData(urlInput, hostname, reply);
      if data.Returned? {
        form := Autofilled(form, data.value);
        urlInput := "";
        isFilled := true;
      }
    }

    /** The rest of `handleCreateArticle` as written, once the request it sent has settled as
        `reply`: the catch always runs, so the error always reads "Error creating article". */
    method CreateSettledAsWritten(reply: Outcome<Body<string>>) returns (navigateTo: Option<string>)
      modifies this
      ensures navigateTo.None? && error == Some("Error creating article")
      ensures form == old(form) && currentKeyword == old(currentKeyword) && urlInput == old(urlInput) && isFilled == old(isFilled)
    {
      match CreatedAsWritten(reply)
      case Threw(_) =>
        error := Some("Error creating article");
        navigateTo := None;
    }

    /** The rest of `handleCreateArticle` reading the returned id: an answered request opens
        the new article, a failed one shows "Error creating article". */
    method CreateSettled(reply: Outcome<Body<string>>) returns (navigateTo: Option<string>)
      modifies this
      ensures navigateTo.Some? <==> reply.Returned?
      ensures navigateTo.Some? ==> Returned(navigateTo.value) == Created(reply) && error == old(error)
      ensures navigateTo.None? ==> error == Some("Error creating article")
      ensures form == old(form) && currentKeyword == old(currentKeyword) && urlInput == old(urlInput) && isFilled == old(isFilled)
    {
      var target := Created(reply);
      if target.Returned? {
        navigateTo := Some(target.value);
      } else {
        error := Some("Error creating article");
        navigateTo := None;
      }
    }

    /** `handleImageChange`: a chosen file replaces the image and its preview; no file changes nothing. */
    method HandleImageChange(file: Option<string>, preview: string)
      modifies this
      ensures form == if file.Some? then old(form).(image := file, imagePreview := preview) else old(form)
      ensures error == old(error) && currentKeyword == old(currentKeyword) && urlInput == old(urlInput) && isFilled == old(isFilled)
    {
      if file.Some? {
        form := form.(image := file, imagePreview := preview);
      }
    }
  }
}
