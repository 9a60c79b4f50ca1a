/**
 * The "create post" screen: a form for offering an item (title, description,
 * category, condition, points or "free gift", images), its ordered validation,
 * the image list the user builds by uploading and removing pictures, the file
 * name and MIME type sent with an upload, and the post record it submits.
 *
 * `Number(...)`/`isNaN` and `parseInt` are JavaScript built-ins the model does not
 * define; they arrive as the parameters `isNumber` (true when `Number(s)` is not NaN)
 * and `parseInt` (None for NaN).
 */
module CreatePost {
  import opened Wrappers
  import opened JsString

  datatype Category = Category(id: string, name: string)

  /** The inputs `validateForm` and `handleSubmit` read. `condition` is "" when
      unset, and the check `!condition` is modelled as `condition == ""`. That
      assumes every `ItemCondition` value is a non-empty string: the enum is
      declared in a file that is not part of this model, and a numeric enum
      with a member equal to 0 would make `!condition` reject that member too. */
  datatype PostForm = PostForm(
    title: string, description: string, category: Option<Category>, condition: string,
    point: string, isFreeGift: bool, images: seq<string>)

  /** The six checks of `validateForm`, in the order they run. */
  datatype FormError =
    | MissingTitle | MissingDescription | MissingCategory | MissingCondition
    | InvalidPoints | NoImages

  /** Position of a check in the validation chain. */
  function Rank(e: FormError): nat {
    match e
    case MissingTitle => 0
    case MissingDescription => 1
    case MissingCategory => 2
    case MissingCondition => 3
    case InvalidPoints => 4
    case NoImages => 5
  }

  /** What each check demands, stated without `trim`: a title and a description
      that are not all white space, a category, a condition, points that are a
      number unless the item is a free gift, and at least one image. */
  predicate Passes(f: PostForm, e: FormError, isNumber: string -> bool) {
    match e
    case MissingTitle => !AllWhite(f.title)
    case MissingDescription => !AllWhite(f.description)
    case MissingCategory => f.category.Some?
    case MissingCondition => f.condition != ""
    case InvalidPoints => f.isFreeGift || (f.point != "" && isNumber(f.point))
    case NoImages => |f.images| != 0
  }

  /** `validateForm`: None when the form may be submitted, otherwise the first
      failing check, which is the one whose alert is shown. */
  function ValidateForm(f: PostForm, isNumber: string -> bool): (r: Option<FormError>)
    ensures r.None? ==> f.category.Some? && f.condition != "" && |f.images| > 0
    ensures f.isFreeGift ==> r != Some(InvalidPoints)
  {
    if Trim(f.title) == "" then Some(MissingTitle)
    else if Trim(f.description) == "" then Some(MissingDescription)
    else if f.category.None? then Some(MissingCategory)
    else if f.condition == "" then Some(MissingCondition)
    else if !f.isFreeGift && (f.point == "" || !isNumber(f.point)) then Some(InvalidPoints)
    else if |f.images| == 0 then Some(NoImages)
    else None
  }

  /** `validateForm` accepts exactly the forms that pass all six checks, and when
      it rejects, it names a failing check all of whose predecessors passed. */
  lemma ValidateFormSpec(f: PostForm, isNumber: string -> bool)
    ensures ValidateForm(f, isNumber).None? <==> forall e :: Passes(f, e, isNumber)
    ensures ValidateForm(f, isNumber).Some? ==> !Passes(f, ValidateForm(f, isNumber).value, isNumber)
    ensures ValidateForm(f, isNumber).Some? ==>
      forall e :: Rank(e) < Rank(ValidateForm(f, isNumber).value) ==> Passes(f, e, isNumber)
  {
    TrimEmptyIffBlank(f.title);
    TrimEmptyIffBlank(f.description);
    if ValidateForm(f, isNumber).None? {
      forall e ensures Passes(f, e, isNumber) {
        match e
        case MissingTitle =>
        case MissingDescription =>
        case MissingCategory =>
        case MissingCondition =>
        case InvalidPoints =>
        case NoImages =>
      }
    } else {
      assert !Passes(f, ValidateForm(f, isNumber).value, isNumber);
    }
  }

  /** For a free gift the point field is never looked at: neither its text nor how
      numbers are parsed changes the verdict. */
  lemma FreeGiftSkipsPoints(f: PostForm, otherPoint: string, isNumber: string -> bool, otherIsNumber: string -> bool)
    requires f.isFreeGift
    ensures ValidateForm(f.(point := otherPoint), otherIsNumber) == ValidateForm(f, isNumber)
  {
  }

  // ---------------------------------------------------------------- upload file name and type

  /** `\w` of a regular expression without the `u` flag. */
  predicate IsWordChar(c: char) {
    'a' <= c <= 'z' || 'A' <= c <= 'Z' || '0' <= c <= '9' || c == '_'
  }

  predicate AllWord(s: string) {
    forall k :: 0 <= k < |s| ==> IsWordChar(s[k])
  }

  /** `uri.split('/').pop()`: the part after the last '/', or all of `uri` when it
      has none. */
  function LastSegment(uri: string): (r: string)
    ensures |r| <= |uri| && r == uri[|uri| - |r|..]
    ensures '/' !in r
    ensures |r| < |uri| ==> uri[|uri| - |r| - 1] == '/'
  {
    if uri == [] || uri[|uri| - 1] == '/' then []
    else LastSegment(uri[..|uri| - 1]) + [uri[|uri| - 1]]
  }

  /** The name used when the URI ends in '/' or is empty. */
  const FALLBACK_NAME: string := "photo.jpg"

  /** `uri.split('/').pop() || 'photo.jpg'`: never empty and without '/'; the
      fallback name or the end of the URI. */
  function FileName(uri: string): (r: string)
    ensures r != [] && '/' !in r
    ensures r == FALLBACK_NAME || (|r| <= |uri| && r == uri[|uri| - |r|..])
  {
    var segment := LastSegment(uri);
    if segment == [] then FallbackNameShape(); FALLBACK_NAME else segment
  }

  /** The fallback name is not empty and has no '/'. */
  lemma FallbackNameShape()
    ensures FALLBACK_NAME != [] && '/' !in FALLBACK_NAME
  {
  }

  /** If a suffix `a` of `s` has no `c` in it, and another suffix `b` of `s` has
      `c` right before it, then `a` is no longer than `b`. */
  lemma SuffixBeforeMark(s: string, a: string, b: string, c: char)
    requires |a| <= |s| && a == s[|s| - |a|..] && c !in a
    requires |b| < |s| && b == s[|s| - |b|..] && s[|s| - |b| - 1] == c
    ensures |a| <= |b|
  {
    if |a| > |b| {
      SuffixAt(s, a);
    }
  }

  /** Position `k` of a suffix `a` of `s` is position `|s| - |a| + k` of `s`. */
  lemma SuffixAt(s: string, a: string)
    requires |a| <= |s| && a == s[|s| - |a|..]
    ensures forall k :: 0 <= k < |a| ==> a[k] == s[|s| - |a| + k]
  {
  }

  /** The file name is whatever follows the last '/', and 'photo.jpg' when nothing does. */
  lemma {:induction false} FileNameOfPath(dir: string, name: string)
    requires '/' !in name
    ensures FileName(dir + "/" + name) == if name == [] then FALLBACK_NAME else name
  {
    var uri := dir + "/" + name;
    var r := LastSegment(uri);
    assert uri[|uri| - |name|..] == name;
    SuffixBeforeMark(uri, r, name, '/');
    SuffixBeforeMark(uri, name, r, '/');
  }

  /** The longest run of word characters at the end of `s`. */
  function TrailingWord(s: string): (r: string)
    ensures |r| <= |s| && r == s[|s| - |r|..]
    ensures AllWord(r)
    ensures |r| < |s| ==> !IsWordChar(s[|s| - |r| - 1])
  {
    if s == [] || !IsWordChar(s[|s| - 1]) then []
    else TrailingWord(s[..|s| - 1]) + [s[|s| - 1]]
  }

  /** `e` is what `/\.(\w+)$/` captures in `name`: one or more word characters that
      end the name and follow a '.'. */
  predicate HasExtension(name: string, e: string) {
    && e != [] && AllWord(e) && |e| < |name|
    && name[|name| - |e|..] == e && name[|name| - |e| - 1] == '.'
  }

  /** The capture of `/\.(\w+)$/.exec(name)`, or None when it does not match. */
  function Extension(name: string): (r: Option<string>)
    ensures r.Some? ==> HasExtension(name, r.value)
  {
    var w := TrailingWord(name);
    if w != [] && |w| < |name| && name[|name| - |w| - 1] == '.' then Some(w) else None
  }

  /** The regular expression can match in one way only, and `Extension` finds it:
      `Extension(name) == Some(e)` exactly when `e` is a capture. */
  lemma {:induction false} ExtensionIff(name: string, e: string)
    ensures HasExtension(name, e) <==> Extension(name) == Some(e)
  {
    var w := TrailingWord(name);
    if HasExtension(name, e) {
      if |e| > |w| {
        SuffixAt(name, e);
      } else if |e| < |w| {
        SuffixAt(name, w);
      }
      assert e == w;
    }
  }

  /** The MIME type sent with an upload: 'image/' and the extension, or 'image/jpeg'.
      It always starts with 'image/'. */
  function MimeType(name: string): (r: string)
    ensures |r| > 6 && r[..6] == "image/"
  {
    var x := Extension(name);
    if x.Some? then ImagePrefix(x.value); "image/" + x.value
    else ImagePrefix("jpeg"); "image/jpeg"
  }

  /** 'image/' followed by a non-empty subtype starts with 'image/'. */
  lemma ImagePrefix(subtype: string)
    requires subtype != []
    ensures |"image/" + subtype| > 6 && ("image/" + subtype)[..6] == "image/"
  {
  }

  /** A name ending in '.' and word characters gets 'image/' and those characters. */
  lemma MimeTypeOfExtension(base: string, e: string)
    requires e != [] && AllWord(e)
    ensures MimeType(base + "." + e) == "image/" + e
  {
    var name := base + "." + e;
    assert name[|name| - |e|..] == e;
    ExtensionIff(name, e);
  }

  /** A name that has no such ending gets 'image/jpeg'. */
  lemma MimeTypeWithoutExtension(name: string)
    requires forall e :: !HasExtension(name, e)
    ensures MimeType(name) == "image/jpeg"
  {
  }

  /** The fallback name 'photo.jpg' is sent as 'image/jpg', not 'image/jpeg'. */
  lemma FallbackNameType()
    ensures MimeType(FALLBACK_NAME) == "image/jpg"
  {
    assert FALLBACK_NAME == "photo" + "." + "jpg";
    MimeTypeOfExtension("photo", "jpg");
  }

  /** The name and type of the file part of an upload. */
  datatype FilePart = FilePart(name: string, mime: string)

  /** The file part of an upload: a non-empty name without '/', and an image type. */
  function UploadFile(uri: string): (r: FilePart)
    ensures r.name != [] && '/' !in r.name
    ensures |r.mime| > 6 && r.mime[..6] == "image/"
  {
    FilePart(FileName(uri), MimeType(FileName(uri)))
  }

  /** A picture stored at `dir/base.e` is uploaded under its own name and typed
      by its extension. */
  lemma UploadOfPicture(dir: string, base: string, e: string)
    requires '/' !in base && e != [] && AllWord(e)
    ensures UploadFile(dir + "/" + (base + "." + e)) == FilePart(base + "." + e, "image/" + e)
  {
    var name := base + "." + e;
    assert '/' !in name by {
      forall k | 0 <= k < |e| ensures e[k] != '/' {
        assert IsWordChar(e[k]);
      }
    }
    FileNameOfPath(dir, name);
    MimeTypeOfExtension(base, e);
  }

  // ---------------------------------------------------------------- image list

  /** `images.filter((_, idx) => idx !== index)` over the part of the list that
      starts at position `from`. */
  function KeepOthers(images: seq<string>, index: int, from: int): (r: seq<string>)
    ensures |r| <= |images|
    ensures forall x :: x in r ==> x in images
    decreases |images|
  {
    if images == [] then []
    else (if from == index then [] else [images[0]]) + KeepOthers(images[1..], index, from + 1)
  }

  /** `removeImage(index)`'s new list: never longer, and only images that were
      there before. */
  function WithoutImage(images: seq<string>, index: int): (r: seq<string>)
    ensures |r| <= |images|
    ensures forall x :: x in r ==> x in images
  {
    KeepOthers(images, index, 0)
  }

  lemma {:induction false} KeepOthersSpec(images: seq<string>, index: int, from: int)
    ensures KeepOthers(images, index, from) ==
      if from <= index < from + |images| then images[..index - from] + images[index - from + 1..]
      else images
    decreases |images|
  {
    if images != [] {
      KeepOthersSpec(images[1..], index, from + 1);
      if from < index < from + |images| {
        assert images[1..][..index - from - 1] == images[1..index - from];
        assert [images[0]] + images[1..index - from] == images[..index - from];
      }
    }
  }

  /** `removeImage(index)` removes exactly the image at `index` and keeps the
      others in order; an index outside the list changes nothing. */
  lemma RemoveImageSpec(images: seq<string>, index: int)
    ensures 0 <= index < |images| ==> WithoutImage(images, index) == images[..index] + images[index + 1..]
    ensures !(0 <= index < |images|) ==> WithoutImage(images, index) == images
    ensures 0 <= index < |images| ==> |WithoutImage(images, index)| == |images| - 1
  {
    KeepOthersSpec(images, index, 0);
  }

  // ---------------------------------------------------------------- initial category and post

  /** `categories.find(cat => cat.id === id)`. */
  function FindById(categories: seq<Category>, id: string): (r: Option<Category>)
    ensures r.None? <==> forall k :: 0 <= k < |categories| ==> categories[k].id != id
    ensures r.Some? ==> exists k :: 0 <= k < |categories| && categories[k] == r.value
                                 && r.value.id == id && forall j :: 0 <= j < k ==> categories[j].id != id
  {
    if categories == [] then None
    else if categories[0].id == id then Some(categories[0])
    else
      var r := FindById(categories[1..], id);
      assert r.Some? ==> exists k :: 1 <= k < |categories| && categories[k] == r.value
                                    && r.value.id == id && forall j :: 0 <= j < k ==> categories[j].id != id by {
        if r.Some? {
          var k :| 0 <= k < |categories[1..]| && categories[1..][k] == r.value
            && forall j :: 0 <= j < k ==> categories[1..][j].id != id;
          assert categories[k + 1] == r.value;
        }
      }
      r
  }

  /** The initial `selectedCategory`: the category passed to the screen, else the
      first category whose id is the id passed (when that id is not empty), else none. */
  function InitialCategory(initial: Option<Category>, initialId: Option<string>, categories: seq<Category>): (r: Option<Category>)
    ensures initial.Some? ==> r == initial
    ensures initial.None? && (initialId.None? || initialId.value == "") ==> r.None?
    ensures r.Some? && initial.None? ==> r.value in categories && r.value.id == initialId.value
  {
    if initial.Some? then initial
    else if initialId.Some? && initialId.value != "" then FindById(categories, initialId.value)
    else None
  }

  /** The record `handleSubmit` sends. `point` None is NaN. */
  datatype PostData = PostData(
    name: string, description: string, categoryId: string, isGift: bool,
    point: Option<int>, quantity: int, condition: string, images: seq<string>)

  /** `postData`; the screen's code asserts a category is set (`selectedCategory!`). */
  function BuildPost(f: PostForm, parseInt: string -> Option<int>): (p: PostData)
    requires f.category.Some?
    ensures p.name == Trim(f.title) && p.description == Trim(f.description)
    ensures p.categoryId == f.category.value.id && p.isGift == f.isFreeGift
    ensures p.point == (if f.isFreeGift then Some(0) else parseInt(f.point))
    ensures p.quantity == 1 && p.condition == f.condition && p.images == f.images
  {
    PostData(Trim(f.title), Trim(f.description), f.category.value.id, f.isFreeGift,
             if f.isFreeGift then Some(0) else parseInt(f.point), 1, f.condition, f.images)
  }

  /** A post built from a form that passed validation has a non-empty name and
      description without surrounding white space, a condition, and at least one image. */
  lemma {:induction false} ValidPostShape(f: PostForm, isNumber: string -> bool, parseInt: string -> Option<int>)
    requires ValidateForm(f, isNumber).None?
    ensures f.category.Some?
    ensures var p := BuildPost(f, parseInt);
      && p.name != [] && !IsWhite(p.name[0]) && !IsWhite(p.name[|p.name| - 1])
      && p.description != [] && !IsWhite(p.description[0])
      && !IsWhite(p.description[|p.description| - 1])
      && p.condition != "" && |p.images| >= 1
  {
    ValidateFormSpec(f, isNumber);
    assert Passes(f, MissingTitle, isNumber) && Passes(f, MissingDescription, isNumber);
    assert Passes(f, MissingCategory, isNumber) && Passes(f, NoImages, isNumber);
    TrimEmptyIffBlank(f.title);
    TrimEmptyIffBlank(f.description);
    TrimShape(f.title);
    TrimShape(f.description);
  }

  // ---------------------------------------------------------------- the screen

  /** What the image picker returned. */
  datatype Pick = Canceled | Picked(uri: string) | PickerFailed

  /** What `submitPost` did: threw, or returned a value (truthy or not). */
  datatype SubmitReply = SubmitThrew | SubmitReturned(truthy: bool)

  /** How `handleSubmit` ended: rejected by validation (with the alert's check),
      failed, or submitted (with the success alert when confirmed) and navigated back. */
  datatype SubmitOutcome = Rejected(error: FormError) | SubmitFailed | Submitted(confirmed: bool)

  /** The screen's state. */
  class CreatePostScreen {
    var title: string
    var description: string
    var selectedCategory: Option<Category>
    var condition: string
    var point: string
    var isFreeGift: bool
    var images: seq<string>
    var selectedImage: Option<string>
    var isUploadingImage: bool
    var isLoading: bool

    /** The form as `validateForm` sees it. */
    function Form(): PostForm
      reads this
    {
      PostForm(title, description, selectedCategory, condition, point, isFreeGift, images)
    }

    constructor (initial: Option<Category>, initialId: Option<string>, categories: seq<Category>)
      ensures selectedCategory == InitialCategory(initial, initialId, categories)
      ensures Form() == PostForm("", "", selectedCategory, "", "", false, [])
      ensures selectedImage == None && !isUploadingImage && !isLoading
    {
      title, description, condition, point := "", "", "", "";
      selectedCategory := InitialCategory(initial, initialId, categories);
      isFreeGift := false;
      images := [];
      selectedImage := None;
      isUploadingImage, isLoading := false, false;
    }

    /** `handleImageUpload`: a picked image's URI is handed to the upload
        (`sent`; the upload's file part is `UploadFile(uri)`), and the URL the
        upload returns is appended to the images. A picker or upload failure is
        reported and leaves the list as it was. */
    method HandleImageUpload(pick: Pick, uploaded: Option<string>) returns (sent: Option<string>, reported: bool)
      modifies this
      ensures sent == (if pick.Picked? then Some(pick.uri) else None)
      ensures images == if pick.Picked? && uploaded.Some? then old(images) + [uploaded.value] else old(images)
      ensures selectedImage == if pick.Picked? then Some(pick.uri) else old(selectedImage)
      ensures reported <==> pick.PickerFailed? || (pick.Picked? && uploaded.None?)
      ensures !isUploadingImage && isLoading == old(isLoading)
      ensures Form() == old(Form()).(images := images)
    {
      isUploadingImage := true;
      sent, reported := None, false;
      if pick.PickerFailed? {
        reported := true;
      } else if pick.Picked? {
        selectedImage := Some(pick.uri);
        sent := Some(pick.uri);
        if uploaded.Some? {
          images := images + [uploaded.value];
        } else {
          reported := true;
        }
      }
      isUploadingImage := false;
    }

    /** `removeImage`. */
    method RemoveImage(index: int)
      modifies this
      ensures images == WithoutImage(old(images), index)
      ensures Form() == old(Form()).(images := images)
      ensures selectedImage == old(selectedImage) && isUploadingImage == old(isUploadingImage)
      ensures isLoading == old(isLoading)
    {
      images := WithoutImage(images, index);
    }

    /** `handleSubmit`: an invalid form is rejected before anything is sent;
        otherwise the post is built and submitted with `isLoading` raised, which
        is lowered again however the submission ends. */
    method HandleSubmit(isNumber: string -> bool, parseInt: string -> Option<int>, reply: SubmitReply)
      returns (outcome: SubmitOutcome, sent: Option<PostData>)
      modifies this
      ensures ValidateForm(Form(), isNumber).Some? ==>
        outcome == Rejected(ValidateForm(Form(), isNumber).value) && sent == None
        && isLoading == old(isLoading)
      ensures ValidateForm(Form(), isNumber).None? ==>
        && Form().category.Some? && sent == Some(BuildPost(Form(), parseInt)) && !isLoading
        && outcome == match reply
                      case SubmitThrew => SubmitFailed
                      case SubmitReturned(truthy) => Submitted(truthy)
      ensures Form() == old(Form()) && selectedImage == old(selectedImage)
      ensures isUploadingImage == old(isUploadingImage)
    {
      var verdict := ValidateForm(Form(), isNumber);
      if verdict.Some? {
        return Rejected(verdict.value), None;
      }
      assert Passes(Form(), MissingCategory, isNumber);
      isLoading := true;
      var post := BuildPost(Form(), parseInt);
      sent := Some(post);
      match reply {
        case SubmitThrew => outcome := SubmitFailed;
        case SubmitReturned(truthy) => outcome := Submitted(truthy);
      }
      isLoading := false;
    }
  }
}
