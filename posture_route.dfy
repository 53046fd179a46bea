/**
 * The posture-analysis endpoint: validates the uploaded image (present,
 * at most 5 MiB, an image type, in that order), names it, uploads it,
 * has it analysed, classifies the analysis by keywords and answers with
 * both; once the image has a name it is deleted again on every exit path
 * unless uploads are kept for debugging. Storage and analysis requests are
 * abstract outcomes.
 */
module PostureRoute {
  import opened Text
  import Sound
  import PostureMonitor

  datatype Severity = Good | Warning | Bad

  /** The severity as the response spells it. */
  function SeverityName(s: Severity): string
  {
    match s
    case Good => "good"
    case Warning => "warning"
    case Bad => "bad"
  }

  // ---------------------------------------------------------------------
  // Keyword severity

  predicate HasBadKeyword(lower: string)
  {
    Contains(lower, "buruk") || Contains(lower, "bungkuk") || Contains(lower, "salah") || Contains(lower, "bahaya")
  }

  predicate HasWarningKeyword(lower: string)
  {
    Contains(lower, "kurang") || Contains(lower, "perhatikan") || Contains(lower, "perbaiki")
  }

  /** The severity rule over the lower-cased analysis: bad if a bad keyword
      occurs, else warning if a warning keyword occurs, else good. */
  predicate Classified(analysis: string, severity: Severity): (r: bool)
    ensures HasBadKeyword(ToLower(analysis)) ==> (r <==> severity == Bad)
  {
    && (severity == Bad <==> HasBadKeyword(ToLower(analysis)))
    && (severity == Warning <==> !HasBadKeyword(ToLower(analysis)) && HasWarningKeyword(ToLower(analysis)))
    && (severity == Good <==> !HasBadKeyword(ToLower(analysis)) && !HasWarningKeyword(ToLower(analysis)))
  }

  /** The classification starts at good and is overwritten by the first
      keyword group that matches. */
  method ClassifySeverity(analysis: string) returns (severity: Severity)
    ensures Classified(analysis, severity)
  {
    var lower := ToLower(analysis);
    severity := Good;
    if HasBadKeyword(lower) {
      severity := Bad;
    } else if HasWarningKeyword(lower) {
      severity := Warning;
    }
  }

  /** Each analysis has exactly one severity. */
  lemma ClassifiedUnique(analysis: string, a: Severity, b: Severity)
    requires Classified(analysis, a) && Classified(analysis, b)
    ensures a == b
  {
  }

  /** A keyword written in any case counts: an occurrence of a word that
      lower-cases to the keyword puts the keyword in the lower-cased text. */
  lemma {:induction false} KeywordInAnyCase(t: string, i: nat, word: string, keyword: string)
    requires OccursAt(t, word, i) && ToLower(word) == keyword
    ensures Contains(ToLower(t), keyword)
  {
    var before := t[..i];
    var after := t[i + |word|..];
    assert t == before + word + after;
    ToLowerAppend(before + word, after);
    ToLowerAppend(before, word);
    var lower := ToLower(t);
    assert lower == ToLower(before) + keyword + ToLower(after);
    assert lower[|ToLower(before)|..|ToLower(before)| + |keyword|] == keyword;
    assert OccursAt(lower, keyword, |ToLower(before)|);
  }

  /** A bad keyword written in any case ("Bungkuk", "SALAH") anywhere
      makes the analysis bad, whatever warning words it also holds. */
  lemma BadKeywordInAnyCase(before: string, word: string, after: string, severity: Severity)
    requires ToLower(word) == "buruk" || ToLower(word) == "bungkuk" || ToLower(word) == "salah" || ToLower(word) == "bahaya"
    requires Classified(before + word + after, severity)
    ensures severity == Bad
  {
    var t := before + word + after;
    assert t[|before|..|before| + |word|] == word;
    KeywordInAnyCase(t, |before|, word, ToLower(word));
  }

  /** The monitor's cue for the severity the endpoint reports: the warning
      cue for bad, the good cue for good, none for warning. */
  lemma MonitorCueForSeverity(s: Severity)
    ensures PostureMonitor.SeverityCue(SeverityName(s)) ==
      match s
      case Bad => [Sound.PostureWarning]
      case Good => [Sound.PostureGood]
      case Warning => []
  {
  }

  // ---------------------------------------------------------------------
  // The request

  const MaxImageBytes: int := 5 * 1024 * 1024

  /** The value of the form's `image` field: an uploaded file, or a plain
      text entry (a string, which has neither `size` nor `type`). */
  datatype ImageField = ImageFile(size: int, mimeType: string) | TextField(text: string)

  /** Reading the form: it throws, or yields the `image` field if any. */
  datatype FormData = FormThrew(error: Thrown) | Form(image: Option<ImageField>)

  /** The message of the `TypeError` thrown by `type.startsWith` on a text
      entry, whose `type` is `undefined`, as the Node.js runtime words it. */
  const TypeErrorMessage: string := "Cannot read properties of undefined (reading 'startsWith')"

  /** `!imageFile`: no field, or the empty text entry. */
  predicate NoImage(form: FormData)
    requires form.Form?
  {
    form.image.None? || form.image.value == TextField("")
  }

  /** A non-empty text entry: `undefined > 5 * 1024 * 1024` is false, so it
      passes the size check and throws at the type check. */
  predicate TextEntry(form: FormData)
    requires form.Form?
  {
    form.image.Some? && form.image.value.TextField? && form.image.value.text != ""
  }

  /** A file larger than the limit. */
  predicate TooLarge(form: FormData)
    requires form.Form?
  {
    form.image.Some? && form.image.value.ImageFile? && form.image.value.size > MaxImageBytes
  }

  /** A file within the limit whose type is not an image type. */
  predicate WrongType(form: FormData)
    requires form.Form?
  {
    form.image.Some? && form.image.value.ImageFile? && form.image.value.size <= MaxImageBytes
    && !StartsWith(form.image.value.mimeType, "image/")
  }

  datatype UploadOutcome = UploadThrew(error: Thrown) | Uploaded(url: string)

  /** The storage calls the endpoint makes, in order. */
  datatype StorageCall = Upload(filename: string) | Delete(filename: string)

  datatype Response =
    | Analysed(analysis: string, severity: Severity)
    | Failed(status: int, error: string)

  /** The image passes the three checks. */
  predicate Acceptable(form: FormData)
  {
    form.Form? && form.image.Some? && form.image.value.ImageFile? && form.image.value.size <= MaxImageBytes
    && StartsWith(form.image.value.mimeType, "image/")
  }

  /** `POST`, with `filename` the generated name, `upload` the outcome of
      the upload, `analysis` the text the analysis call resolves to (never
      an exception: `Glm.AnalyzePostureVision` states how it follows from
      the outcome of the model request) and `keepFiles` the debug setting. */
  method Post(form: FormData, filename: string, upload: UploadOutcome, analysis: string, keepFiles: bool)
    returns (response: Response, calls: seq<StorageCall>)
    ensures form.FormThrew? ==> response == Failed(500, ErrorMessage(form.error, "Analysis failed"))
    ensures form.Form? && NoImage(form) ==> response == Failed(400, "No image provided")
    ensures form.Form? && TextEntry(form) ==> response == Failed(500, TypeErrorMessage)
    ensures form.Form? && TooLarge(form) ==> response == Failed(400, "Image too large (max 5MB)")
    ensures form.Form? && WrongType(form) ==> response == Failed(400, "Invalid file type")
    ensures !Acceptable(form) ==> calls == []
    ensures Acceptable(form) ==>
      calls == [Upload(filename)] + (if filename != "" && !keepFiles then [Delete(filename)] else [])
    ensures Acceptable(form) && upload.UploadThrew? ==> response == Failed(500, ErrorMessage(upload.error, "Analysis failed"))
    ensures Acceptable(form) && upload.Uploaded? ==>
      response.Analysed? && response.analysis == analysis && Classified(analysis, response.severity)
  {
    var named: Option<string> := None;
    calls := [];
    if !Acceptable(form) {
      response := Reject(form);
    } else {
      named := Some(filename);
      calls := calls + [Upload(filename)];
      response := Analyse(upload, analysis);
    }
    // finally
    if named.Some? && named.value != "" && !keepFiles {
      calls := calls + [Delete(named.value)];
    }
  }

  /** The checks of the form, in order, for a form that fails one. */
  method Reject(form: FormData) returns (response: Response)
    requires !Acceptable(form)
    ensures form.FormThrew? ==> response == Failed(500, ErrorMessage(form.error, "Analysis failed"))
    ensures form.Form? && NoImage(form) ==> response == Failed(400, "No image provided")
    ensures form.Form? && TextEntry(form) ==> response == Failed(500, TypeErrorMessage)
    ensures form.Form? && TooLarge(form) ==> response == Failed(400, "Image too large (max 5MB)")
    ensures form.Form? && WrongType(form) ==> response == Failed(400, "Invalid file type")
  {
    if form.FormThrew? {
      response := Failed(500, ErrorMessage(form.error, "Analysis failed"));
    } else if NoImage(form) {
      response := Failed(400, "No image provided");
    } else if form.image.value.TextField? {
      // The size check passes; `type.startsWith` throws a TypeError.
      response := Failed(500, ErrorMessage(ErrorObject(TypeErrorMessage), "Analysis failed"));
    } else if form.image.value.size > MaxImageBytes {
      response := Failed(400, "Image too large (max 5MB)");
    } else {
      response := Failed(400, "Invalid file type");
    }
  }

  /** The body of the request once the image is accepted and named: the
      upload, then the analysis and its classification. */
  method Analyse(upload: UploadOutcome, analysis: string) returns (response: Response)
    ensures upload.UploadThrew? ==> response == Failed(500, ErrorMessage(upload.error, "Analysis failed"))
    ensures upload.Uploaded? ==>
      response.Analysed? && response.analysis == analysis && Classified(analysis, response.severity)
  {
    if upload.UploadThrew? {
      response := Failed(500, ErrorMessage(upload.error, "Analysis failed"));
    } else {
      var severity := ClassifySeverity(analysis);
      response := Analysed(analysis, severity);
    }
  }

  /** Every form is covered: it throws, or it has no image, a text entry,
      a file that is too large, a file of the wrong type, or an acceptable
      file; and these cases exclude one another. */
  lemma FormCases(form: FormData)
    requires form.Form?
    ensures NoImage(form) || TextEntry(form) || TooLarge(form) || WrongType(form) || Acceptable(form)
    ensures Acceptable(form) ==> !NoImage(form) && !TextEntry(form) && !TooLarge(form) && !WrongType(form)
    ensures NoImage(form) ==> !TextEntry(form) && !TooLarge(form) && !WrongType(form)
    ensures TextEntry(form) ==> !TooLarge(form) && !WrongType(form)
  {
  }

  /** Exactly 5 MiB is accepted. */
  lemma FiveMebibytesAccepted(mimeType: string)
    requires StartsWith(mimeType, "image/")
    ensures Acceptable(Form(Some(ImageFile(5 * 1024 * 1024, mimeType))))
    ensures !Acceptable(Form(Some(ImageFile(5 * 1024 * 1024 + 1, mimeType))))
  {
  }
}
