/**
 * The `App` component's state and handlers: the component state and the
 * browser storage are fields, each handler a method that updates them.
 */
module AppComponent {
  import opened Wrappers
  import opened Types
  import Js
  import KeyCache
  import FormState
  import GeminiService

  const GenerationFailedMessage: string := "Hiba történt a generálás során. Ellenőrizze az API kulcsot és próbálja újra!"

  class App {
    var loading: bool
    var error: Option<string>
    var result: Option<GenerationResult>
    var userApiKey: string
    var formData: ApplicationData
    /** The page's `localStorage`. */
    var storage: KeyCache.Storage

    /** The form keeps the CV either as text or as a file. */
    predicate Valid()
      reads this
    {
      FormState.CvExclusive(formData)
    }

    /** The first render: the initial state, over whatever the storage already holds. */
    constructor(storage0: KeyCache.Storage)
      ensures Valid()
      ensures !loading && error.None? && result.None? && userApiKey == ""
      ensures formData == FormState.InitialForm() && storage == storage0
    {
      loading := false;
      error := None;
      result := None;
      userApiKey := "";
      formData := FormState.InitialForm();
      storage := storage0;
    }

    /** The mount effect at time `now`: restore the saved key, or purge an expired one. */
    method LoadSavedKey(now: int)
      modifies this
      ensures var load := KeyCache.OnMount(old(storage), now);
        && userApiKey == (if load.Restore? then load.key else old(userApiKey))
        && storage == KeyCache.StorageAfter(old(storage), load)
      ensures loading == old(loading) && error == old(error) && result == old(result) && formData == old(formData)
    {
      var savedKey := KeyCache.GetItem(storage, KeyCache.StorageKey);
      var savedTime := KeyCache.GetItem(storage, KeyCache.TimestampKey);
      if Js.Truthy(savedKey) && Js.Truthy(savedTime) {
        var time := Js.ParseInt(savedTime.value);
        if time.Some? && now - time.value < KeyCache.ExpiryMs {
          userApiKey := savedKey.value;
        } else {
          storage := storage - {KeyCache.StorageKey};
          storage := storage - {KeyCache.TimestampKey};
        }
      }
    }

    /**
     * `handleApiKeyChange(value)` at time `now`: keep the key and save it with
     * the time; a later mount effect restores a non-empty key for 24 hours and
     * purges it afterwards.
     */
    method HandleApiKeyChange(value: string, now: nat)
      modifies this
      ensures userApiKey == value
      ensures storage == KeyCache.StoreKey(old(storage), value, now)
      ensures value != "" ==> forall later :: later < now + KeyCache.ExpiryMs ==> KeyCache.OnMount(storage, later) == KeyCache.Restore(value)
      ensures value != "" ==> forall later :: later >= now + KeyCache.ExpiryMs ==> KeyCache.OnMount(storage, later) == KeyCache.Purge
      ensures loading == old(loading) && error == old(error) && result == old(result) && formData == old(formData)
    {
      userApiKey := value;
      storage := storage[KeyCache.StorageKey := value];
      storage := storage[KeyCache.TimestampKey := Js.NatToString(now)];
      if value != "" {
        forall later: int {
          KeyCache.StoreThenLoad(old(storage), value, now, later);
        }
      }
    }

    /**
     * `handleInputChange(field, value)`: only `field` changes. The CV text
     * stays empty under an attached file as long as the edit is one the page
     * allows.
     */
    method HandleInputChange(field: FormState.Field, value: FormState.Value)
      requires FormState.Fits(field, value)
      modifies this
      ensures formData == FormState.With(old(formData), field, value)
      ensures old(Valid()) && FormState.EditAllowed(old(formData), field) ==> Valid()
      ensures loading == old(loading) && error == old(error) && result == old(result)
      ensures userApiKey == old(userApiKey) && storage == old(storage)
    {
      if Valid() && FormState.EditAllowed(formData, field) {
        FormState.HandlersKeepCvExclusive(formData, field, value, FormState.Llm, 1, FileData("", "", ""));
      }
      formData := FormState.With(formData, field, value);
    }

    /** `handleSkillChange(skill, value)`: only that rating changes. */
    method HandleSkillChange(skill: FormState.SkillKey, value: Level)
      modifies this
      ensures formData == FormState.WithSkill(old(formData), skill, value)
      ensures old(Valid()) ==> Valid()
      ensures loading == old(loading) && error == old(error) && result == old(result)
      ensures userApiKey == old(userApiKey) && storage == old(storage)
    {
      if Valid() {
        FormState.HandlersKeepCvExclusive(formData, FormState.JdDataKey, FormState.Text(""), skill, value, FileData("", "", ""));
      }
      formData := FormState.WithSkill(formData, skill, value);
    }

    /**
     * `handleFileChange` with the picked file (none when the dialog was
     * cancelled) and the data URL the reader produces for it: nothing happens
     * without a file; a file over 3 MB sets the error and leaves the form as it
     * is; otherwise the file is attached and the CV text cleared.
     */
    method HandleFileChange(file: Option<FormState.PickedFile>, dataUrl: string)
      requires file.Some? && !FormState.TooLarge(file.value) ==> ',' in dataUrl
      modifies this
      ensures file.None? ==> formData == old(formData) && error == old(error)
      ensures file.Some? && FormState.TooLarge(file.value) ==>
        formData == old(formData) && error == Some(FormState.FileTooLargeMessage)
      ensures file.Some? && !FormState.TooLarge(file.value) ==>
        formData == FormState.WithFile(old(formData), FormState.FileDataOf(file.value, dataUrl)) && error == old(error)
      ensures old(Valid()) ==> Valid()
      ensures loading == old(loading) && result == old(result)
      ensures userApiKey == old(userApiKey) && storage == old(storage)
    {
      if file.None? {
        return;
      }
      if file.value.size > 3 * 1024 * 1024 {
        error := Some(FormState.FileTooLargeMessage);
        return;
      }
      formData := FormState.WithFile(formData, FormState.FileDataOf(file.value, dataUrl));
    }

    /** `removeFile`: drop the attachment and clear the CV text. */
    method RemoveFile()
      modifies this
      ensures formData == FormState.WithoutFile(old(formData))
      ensures Valid()
      ensures loading == old(loading) && error == old(error) && result == old(result)
      ensures userApiKey == old(userApiKey) && storage == old(storage)
    {
      formData := FormState.WithoutFile(formData);
    }

    /**
     * `handleSubmit` up to the request: stop with the CV message or the key
     * message, in that order; otherwise start loading and clear the error.
     */
    method BeginSubmit() returns (proceed: bool)
      modifies this
      ensures var blocker := FormState.SubmitBlocker(old(formData), old(userApiKey));
        && (proceed <==> blocker.None?)
        && (blocker.Some? ==> error == blocker && loading == old(loading))
        && (blocker.None? ==> loading && error.None?)
      ensures result == old(result) && formData == old(formData)
      ensures userApiKey == old(userApiKey) && storage == old(storage)
    {
      if formData.cvData == "" && formData.cvFile.None? {
        error := Some(FormState.CvMissingMessage);
        return false;
      }
      if userApiKey == "" {
        error := Some(FormState.KeyMissingMessage);
        return false;
      }
      loading := true;
      error := None;
      proceed := true;
    }

    /**
     * `handleSubmit` after the request settles: keep the materials, or keep
     * the previous result and show the generic failure message; stop loading.
     */
    method FinishSubmit(outcome: Result<GenerationResult, GeminiService.GenError>)
      modifies this
      ensures outcome.Success? ==> result == Some(outcome.value) && error == old(error)
      ensures outcome.Failure? ==> result == old(result) && error == Some(GenerationFailedMessage)
      ensures !loading
      ensures formData == old(formData) && userApiKey == old(userApiKey) && storage == old(storage)
    {
      if outcome.Success? {
        result := Some(outcome.value);
      } else {
        error := Some(GenerationFailedMessage);
      }
      loading := false;
    }

    /**
     * `handleSubmit`: a blocked submit never reaches the generator (the
     * outcome is `None`); otherwise the generator gets the user's key and the
     * form, and its outcome decides `result` and `error`.
     */
    method HandleSubmit(
      envApiKey: Option<string>,
      generate: (string, GeminiService.Request) -> GeminiService.Reply,
      parse: string -> Option<GenerationResult>)
      returns (outcome: Option<Result<GenerationResult, GeminiService.GenError>>)
      modifies this
      ensures var blocker := FormState.SubmitBlocker(old(formData), old(userApiKey));
        blocker.Some? ==> outcome.None? && error == blocker && loading == old(loading) && result == old(result)
      ensures FormState.SubmitBlocker(old(formData), old(userApiKey)).None? ==>
        && outcome == Some(GeminiService.ReadResponse(generate(old(userApiKey), GeminiService.ComposeRequest(old(formData))), parse))
        && !loading
        && (outcome.value.Success? ==> result == Some(outcome.value.value) && error.None?)
        && (outcome.value.Failure? ==> result == old(result) && error == Some(GenerationFailedMessage))
      ensures formData == old(formData) && userApiKey == old(userApiKey) && storage == old(storage)
    {
      var proceed := BeginSubmit();
      if !proceed {
        return None;
      }
      var r := GeminiService.GenerateHRMaterials(formData, Some(userApiKey), envApiKey, generate, parse);
      FinishSubmit(r);
      outcome := Some(r);
    }
  }
}
