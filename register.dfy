/**
 * The registration page: the password confirmation check, the two posts
 * (register, then obtain a token pair), logging in with the pair, and the
 * error text built from the server's field errors.
 */
module Register {
  import opened Wrappers
  import opened Api
  import opened UserSerializers

  const PasswordMismatch: string := "Passwords do not match."
  const GenericFailure: string := "Registration failed. Please try again."

  /** A field's error in the response body: one string, or an array of messages. */
  datatype ErrorValue = Text(text: string) | Messages(messages: seq<string>)

  /** The response body of a failed post, key by key in the body's order. */
  type ErrorData = seq<(string, ErrorValue)>

  /** `parts.join(sep)`. */
  function Join(parts: seq<string>, sep: string): (r: string)
    ensures parts == [] ==> r == ""
    ensures |parts| == 1 ==> r == parts[0]
  {
    if parts == [] then ""
    else if |parts| == 1 then parts[0]
    else parts[0] + sep + Join(parts[1..], sep)
  }

  /** Joining a concatenation puts one separator between the two joins. */
  lemma {:induction false} JoinAppend(a: seq<string>, b: seq<string>, sep: string)
    requires a != [] && b != []
    ensures Join(a + b, sep) == Join(a, sep) + sep + Join(b, sep)
  {
    if |a| == 1 {
      assert a + b == [a[0]] + b;
    } else {
      assert (a + b)[1..] == a[1..] + b;
      JoinAppend(a[1..], b, sep);
    }
  }

  /** A value interpolated into a template string: an array prints its items joined by commas. */
  function ValueText(v: ErrorValue): string {
    match v
    case Text(t) => t
    case Messages(ms) => Join(ms, ",")
  }

  /** One `key: value` item of the message. */
  function EntryText(e: (string, ErrorValue)): (r: string)
    ensures r == e.0 + ": " + ValueText(e.1)
  {
    e.0 + ": " + ValueText(e.1)
  }

  function EntryTexts(data: ErrorData): (r: seq<string>)
    ensures |r| == |data|
    ensures forall i :: 0 <= i < |data| ==> r[i] == EntryText(data[i])
  {
    if data == [] then [] else [EntryText(data[0])] + EntryTexts(data[1..])
  }

  /** The error message built from the response body: every key's item, joined by `, `. */
  function FormatErrors(data: ErrorData): (r: string)
    ensures data == [] ==> r == ""
    ensures |data| == 1 ==> r == EntryText(data[0])
    ensures data != [] ==> |EntryText(data[0])| <= |r| && r[..|EntryText(data[0])|] == EntryText(data[0])
  {
    Join(EntryTexts(data), ", ")
  }

  /** The message for a body that merges two bodies' keys is the two messages joined. */
  lemma FormatErrorsAppend(a: ErrorData, b: ErrorData)
    requires a != [] && b != []
    ensures FormatErrors(a + b) == FormatErrors(a) + ", " + FormatErrors(b)
  {
    assert EntryTexts(a + b) == EntryTexts(a) + EntryTexts(b);
    JoinAppend(EntryTexts(a), EntryTexts(b), ", ");
  }

  /** A body with one key gives `key: value`, an array's messages joined by commas. */
  lemma FormatErrorsSingle(key: string, messages: seq<string>)
    requires messages != []
    ensures FormatErrors([(key, Messages(messages))]) == key + ": " + Join(messages, ",")
  {
  }

  /** The message after a failed post: the body's errors if the response carried a body, else the generic text. */
  function FailureMessage(data: Option<ErrorData>): (m: string)
    ensures data.None? ==> m == GenericFailure
    ensures data.Some? ==> m == FormatErrors(data.value)
  {
    if data.Some? then FormatErrors(data.value) else GenericFailure
  }

  /** The outcome of a post: the response data, or a failure with the body if a response came. */
  datatype Reply<T> = Success(value: T) | Failure(data: Option<ErrorData>)

  /** A post the page makes: the path and the body's keys. */
  datatype Post = Post(path: string, body: map<string, string>)

  function RegisterPost(username: string, password: string, email: string): Post {
    Post("/api/register/", map["username" := username, "password" := password, "email" := email])
  }

  function TokenPost(username: string, password: string): Post {
    Post("/api/token/", map["username" := username, "password" := password])
  }

  /** What the registration serializer receives from the page's body. */
  function RegistrationBody(username: string, password: string, email: string): RegistrationData {
    RegistrationData(Some(username), Some(password), Some(email), None, None)
  }

  /**
   * The page's body holds every key `create` reads, so `create` builds the
   * user from the typed username, email and password, with empty names.
   * Whether the serializer's field validation lets the body reach `create`
   * is not part of this statement.
   */
  lemma RegisterBodyCreatesUser(username: string, password: string, email: string, id: nat)
    ensures
      var r := Create(RegistrationBody(username, password, email), id);
      && r.Some?
      && r.value.user.username == username && r.value.user.email == email
      && r.value.user.firstName == "" && r.value.user.lastName == ""
      && r.value.password == password
  {
  }

  /** The form's fields and the page's error and location. */
  class RegisterForm {
    var username: string
    var password: string
    var confirmPassword: string
    var email: string
    var error: Option<string>
    var location: string

    constructor(location: string)
      ensures username == "" && password == "" && confirmPassword == "" && email == ""
      ensures error.None? && this.location == location
    {
      username, password, confirmPassword, email := "", "", "", "";
      error := None;
      this.location := location;
    }

    /** All four inputs are marked `required`: each must hold a value. */
    predicate RequiredFilled()
      reads this
    {
      username != "" && email != "" && password != "" && confirmPassword != ""
    }

    /**
     * Submitting the form: the browser fires `onSubmit` only when every
     * input holds a value and it accepts the email's syntax (its verdict is
     * `emailAccepted`); otherwise nothing is posted and nothing changes.
     */
    method Submit(emailAccepted: bool, registered: Reply<()>, issued: Reply<TokenPair>)
      returns (posts: seq<Post>, login: Option<TokenPair>)
      modifies this
      ensures username == old(username) && password == old(password)
      ensures confirmPassword == old(confirmPassword) && email == old(email)
      ensures !(old(RequiredFilled()) && emailAccepted) ==>
        posts == [] && login.None? && error == old(error) && location == old(location)
      ensures old(RequiredFilled()) && emailAccepted && password != confirmPassword ==>
        posts == [] && login.None? && error == Some(PasswordMismatch) && location == old(location)
      ensures old(RequiredFilled()) && emailAccepted && password == confirmPassword ==>
        && |posts| >= 1 && posts[0] == RegisterPost(username, password, email)
        && (login.Some? <==> registered.Success? && issued.Success?)
        && (login.Some? ==> login == Some(issued.value) && error.None? && location == "/")
        && (login.None? ==> error.Some? && location == old(location))
    {
      if !(RequiredFilled() && emailAccepted) {
        return [], None;
      }
      posts, login := HandleSubmit(registered, issued);
    }

    /**
     * `handleSubmit`, given the outcome each post would have: a mismatch
     * posts nothing; otherwise register, then (on success) ask for tokens;
     * both succeeding logs in with the pair and goes home, any failure
     * shows its message.
     */
    method HandleSubmit(registered: Reply<()>, issued: Reply<TokenPair>)
      returns (posts: seq<Post>, login: Option<TokenPair>)
      modifies this
      ensures username == old(username) && password == old(password)
      ensures confirmPassword == old(confirmPassword) && email == old(email)
      ensures password != confirmPassword ==>
        posts == [] && login.None? && error == Some(PasswordMismatch) && location == old(location)
      ensures password == confirmPassword && registered.Failure? ==>
        && posts == [RegisterPost(username, password, email)]
        && login.None? && error == Some(FailureMessage(registered.data)) && location == old(location)
      ensures password == confirmPassword && registered.Success? && issued.Failure? ==>
        && posts == [RegisterPost(username, password, email), TokenPost(username, password)]
        && login.None? && error == Some(FailureMessage(issued.data)) && location == old(location)
      ensures password == confirmPassword && registered.Success? && issued.Success? ==>
        && posts == [RegisterPost(username, password, email), TokenPost(username, password)]
        && login == Some(issued.value) && error.None? && location == "/"
    {
      error := None;
      posts, login := [], None;
      if password != confirmPassword {
        error := Some(PasswordMismatch);
        return;
      }
      posts := posts + [RegisterPost(username, password, email)];
      if registered.Failure? {
        error := Some(FailureMessage(registered.data));
        return;
      }
      posts := posts + [TokenPost(username, password)];
      if issued.Failure? {
        error := Some(FailureMessage(issued.data));
        return;
      }
      login := Some(issued.value);
      location := "/";
    }
  }
}
