/**
 * The complaint form: a record of text fields and staged images, an error map
 * keyed by field name, and the submitting / success flags. Every handler
 * updates the component's state in place, so the form is a class.
 */
module ComplaintPage {
  import opened Text

  /** Field names, which are also the keys of the error map. */
  datatype Key = Title | Category | Description | Location | Urgency | Images

  /** A selected image file; only its identity matters to the form. */
  datatype ImageFile = ImageFile(name: string)

  datatype ComplaintData = ComplaintData(
    title: string, category: string, description: string,
    location: string, urgency: string, images: seq<ImageFile>)

  const InitialData := ComplaintData("", "", "", "", "medium", [])

  const MaxImages := 5
  const TooManyImages := "Maximum 5 images allowed"
  const GeolocationUnsupported := "Geolocation is not supported"
  const LocationUnavailable := "Unable to get current location"

  /** The text value behind a field name; images are not a text field. */
  function Get(d: ComplaintData, k: Key): string
    requires k != Images
  {
    match k
    case Title => d.title
    case Category => d.category
    case Description => d.description
    case Location => d.location
    case Urgency => d.urgency
  }

  predicate Shows(errors: map<Key, string>, k: Key)
  {
    k in errors && errors[k] != ""
  }

  /**
   * Whether validation reports field `k`: title, description and location
   * when they hold only white space, the category when it is empty. Urgency
   * and images are never checked.
   */
  predicate Missing(d: ComplaintData, k: Key)
  {
    match k
    case Title => Blank(d.title)
    case Category => d.category == ""
    case Description => Blank(d.description)
    case Location => Blank(d.location)
    case Urgency => false
    case Images => false
  }

  function RequiredMessage(k: Key): string
  {
    match k
    case Title => "Title is required"
    case Category => "Category is required"
    case Description => "Description is required"
    case Location => "Location is required"
    case Urgency => ""
    case Images => ""
  }

  /** The error map validation produces: one 'required' message per missing field, nothing else. */
  function ComplaintErrors(d: ComplaintData): (r: map<Key, string>)
    ensures forall k :: k in r <==> Missing(d, k)
    ensures forall k | k in r :: r[k] == RequiredMessage(k) && r[k] != ""
    ensures Urgency !in r && Images !in r
  {
    map k | k in {Title, Category, Description, Location} && Missing(d, k) :: RequiredMessage(k)
  }

  /** Any map holding exactly the 'required' messages of the missing fields is the validation result. */
  lemma ErrorsDetermined(errors: map<Key, string>, d: ComplaintData)
    requires forall k :: k in errors <==> Missing(d, k)
    requires forall k | k in errors :: errors[k] == RequiredMessage(k)
    ensures errors == ComplaintErrors(d)
  {
  }

  /** A complaint is accepted exactly when the four required fields are filled in. */
  lemma AcceptedIff(d: ComplaintData)
    ensures ComplaintErrors(d) == map[] <==>
      !Blank(d.title) && d.category != "" && !Blank(d.description) && !Blank(d.location)
  {
    if !(ComplaintErrors(d) == map[]) {
      var k :| k in ComplaintErrors(d);
      assert Missing(d, k);
    } else {
      assert !Missing(d, Title) && !Missing(d, Category) && !Missing(d, Description) && !Missing(d, Location);
    }
  }

  /**
   * `images.filter((_, i) => i !== index)`: keeps every element whose position
   * is not `index`, in order. An index outside the list removes nothing.
   */
  function Without<T>(s: seq<T>, index: int): (r: seq<T>)
    ensures 0 <= index < |s| ==> r == s[..index] + s[index + 1..]
    ensures !(0 <= index < |s|) ==> r == s
  {
    if s == [] then []
    else
      var front := s[..|s| - 1];
      assert s == front + [s[|s| - 1]];
      Without(front, index) + (if index == |s| - 1 then [] else [s[|s| - 1]])
  }

  /** Removing an image shortens the list by one exactly when the index is in range, and keeps the others in order. */
  lemma WithoutKeepsOrder<T>(s: seq<T>, index: int)
    requires 0 <= index < |s|
    ensures |Without(s, index)| == |s| - 1
    ensures forall j | 0 <= j < |s| - 1 :: Without(s, index)[j] == s[if j < index then j else j + 1]
  {
  }

  class ComplaintForm {
    var formData: ComplaintData
    var errors: map<Key, string>
    var isSubmitting: bool
    var showSuccess: bool

    /** At most five images are ever staged. */
    ghost predicate Valid()
      reads this
    {
      |formData.images| <= MaxImages
    }

    constructor ()
      ensures Valid()
      ensures formData == InitialData && errors == map[] && !isSubmitting && !showSuccess
    {
      formData := InitialData;
      errors := map[];
      isSubmitting := false;
      showSuccess := false;
    }

    /** `handleInputChange`: the named field takes the value and a shown error on it is blanked. */
    method HandleInputChange(name: Key, value: string)
      requires Valid() && name != Images
      modifies this`formData, this`errors
      ensures Valid()
      ensures Get(formData, name) == value
      ensures forall k | k != Images && k != name :: Get(formData, k) == Get(old(formData), k)
      ensures formData.images == old(formData.images)
      ensures !Shows(errors, name) && errors.Keys == old(errors).Keys
      ensures forall k | k in old(errors) && (k != name || old(errors)[k] == "") :: errors[k] == old(errors)[k]
    {
      match name {
        case Title => formData := formData.(title := value);
        case Category => formData := formData.(category := value);
        case Description => formData := formData.(description := value);
        case Location => formData := formData.(location := value);
        case Urgency => formData := formData.(urgency := value);
      }
      if Shows(errors, name) {
        errors := errors[name := ""];
      }
    }

    /**
     * `handleImageUpload`: a batch that would take the list past five is
     * rejected whole with an error; otherwise it is appended in order and the
     * images error is blanked.
     */
    method HandleImageUpload(files: seq<ImageFile>)
      requires Valid()
      modifies this`formData, this`errors
      ensures Valid()
      ensures |files| + |old(formData.images)| > MaxImages ==>
        formData == old(formData) && errors == old(errors)[Images := TooManyImages]
      ensures |files| + |old(formData.images)| <= MaxImages ==>
        formData == old(formData).(images := old(formData.images) + files) && errors == old(errors)[Images := ""]
    {
      if |files| + |formData.images| > MaxImages {
        errors := errors[Images := TooManyImages];
        return;
      }
      formData := formData.(images := formData.images + files);
      errors := errors[Images := ""];
    }

    /** `removeImage`: drops the image at `index`; errors and the other fields are untouched. */
    method RemoveImage(index: int)
      requires Valid()
      modifies this`formData
      ensures Valid()
      ensures formData == old(formData).(images := Without(old(formData.images), index))
    {
      formData := formData.(images := Without(formData.images, index));
    }

    /** `validateForm`: the error map is replaced by a fresh one; the form is valid when it is empty. */
    method ValidateForm() returns (valid: bool)
      requires Valid()
      modifies this`errors
      ensures Valid()
      ensures errors == ComplaintErrors(formData)
      ensures valid <==> errors == map[]
    {
      var d := formData;
      var newErrors: map<Key, string> := map[];
      if TrimsToEmpty(d.title) { newErrors := newErrors[Title := "Title is required"]; }
      if d.category == "" { newErrors := newErrors[Category := "Category is required"]; }
      if TrimsToEmpty(d.description) { newErrors := newErrors[Description := "Description is required"]; }
      if TrimsToEmpty(d.location) { newErrors := newErrors[Location := "Location is required"]; }
      forall k ensures (k in newErrors <==> Missing(d, k)) && (k in newErrors ==> newErrors[k] == RequiredMessage(k)) {
      }
      ErrorsDetermined(newErrors, d);
      errors := newErrors;
      valid := |newErrors| == 0;
    }

    /**
     * `handleSubmit`: validates; only a valid form starts submitting. The
     * submit button is disabled while a submission is outstanding.
     */
    method HandleSubmit() returns (started: bool)
      requires Valid() && !isSubmitting
      modifies this`errors, this`isSubmitting
      ensures Valid()
      ensures errors == ComplaintErrors(formData)
      ensures started <==> ComplaintErrors(formData) == map[]
      ensures isSubmitting == started
    {
      started := ValidateForm();
      if !started {
        return;
      }
      isSubmitting := true;
    }

    /** The simulated submission finishes: success is shown and the form returns to its initial record. */
    method CompleteSubmit()
      requires Valid() && isSubmitting
      modifies this`formData, this`isSubmitting, this`showSuccess
      ensures Valid()
      ensures !isSubmitting && showSuccess && formData == InitialData
    {
      isSubmitting := false;
      showSuccess := true;
      formData := ComplaintData("", "", "", "", "medium", []);
    }

    /** "Submit Another Complaint" on the success screen. */
    method SubmitAnother()
      requires Valid()
      modifies this`showSuccess
      ensures Valid() && !showSuccess
    {
      showSuccess := false;
    }

    /**
     * `getCurrentLocation`: without geolocation support the location error is
     * set at once; with it, a lookup is requested and nothing changes until it
     * answers (`LocationFound` or `LocationFailed`).
     */
    method GetCurrentLocation(supported: bool)
      requires Valid()
      modifies this`errors
      ensures Valid()
      ensures !supported ==> errors == old(errors)[Location := GeolocationUnsupported]
      ensures supported ==> errors == old(errors)
    {
      if !supported {
        errors := errors[Location := GeolocationUnsupported];
      }
    }

    /** The lookup answered: the formatted coordinates become the location; errors are left as they were. */
    method LocationFound(formatted: string)
      requires Valid()
      modifies this`formData
      ensures Valid()
      ensures formData == old(formData).(location := formatted)
    {
      formData := formData.(location := formatted);
    }

    /** The lookup failed: the location error is set and the form data is untouched. */
    method LocationFailed()
      requires Valid()
      modifies this`errors
      ensures Valid()
      ensures errors == old(errors)[Location := LocationUnavailable]
    {
      errors := errors[Location := LocationUnavailable];
    }
  }

  /** Five images staged one batch at a time, then a sixth: the sixth is refused and five stay staged. */
  method SixthImageRefused(five: seq<ImageFile>, sixth: ImageFile) returns (staged: seq<ImageFile>, error: string)
    requires |five| == MaxImages
    ensures staged == five && error == TooManyImages
  {
    var form := new ComplaintForm();
    form.HandleImageUpload(five);
    form.HandleImageUpload([sixth]);
    staged, error := form.formData.images, form.errors[Images];
  }

  /** Six images in one batch: the whole batch is refused, none is staged. */
  method OversizedBatchRefused(six: seq<ImageFile>) returns (staged: seq<ImageFile>, error: string)
    requires |six| == MaxImages + 1
    ensures staged == [] && error == TooManyImages
  {
    var form := new ComplaintForm();
    form.HandleImageUpload(six);
    staged, error := form.formData.images, form.errors[Images];
  }

  /**
   * Any valid complaint, entered field by field and with its images uploaded
   * in one batch, is submitted and completed: the success screen shows and the
   * form is back to the initial record.
   */
  method SubmitAndComplete(d: ComplaintData) returns (entered: bool, done: bool, after: ComplaintData)
    requires |d.images| <= MaxImages && ComplaintErrors(d) == map[]
    ensures entered && done && after == InitialData
  {
    var form := new ComplaintForm();
    form.HandleInputChange(Title, d.title);
    form.HandleInputChange(Category, d.category);
    form.HandleInputChange(Description, d.description);
    form.HandleInputChange(Location, d.location);
    form.HandleInputChange(Urgency, d.urgency);
    form.HandleImageUpload(d.images);
    entered := form.formData == d;
    var started := form.HandleSubmit();
    form.CompleteSubmit();
    done, after := form.showSuccess, form.formData;
  }
}
