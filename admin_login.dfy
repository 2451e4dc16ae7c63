/**
 * The admin login page: which view it shows, and its submit handler, which sets up the first
 * admin when none exists and then logs in, storing the token and moving to the products.
 */
module AdminLogin {
  import opened Wrappers
  import opened Types
  import opened Numbers
  import opened AdminAuth
  import AdminRoutes

  const WrongPassword: string := "Неверный пароль"
  const GenericError: string := "Произошла ошибка"

  /** A value caught by `catch (err)`: an `Error` with its message, or anything else. */
  datatype Caught = ErrorValue(message: string) | OtherValue

  /** `err instanceof Error ? err.message : "Произошла ошибка"` */
  function CaughtMessage(err: Caught): (m: string)
    ensures err.ErrorValue? ==> m == err.message
    ensures err.OtherValue? ==> m == GenericError
  {
    match err
    case ErrorValue(message) => message
    case OtherValue => GenericError
  }

  /** The three faces of the page. */
  datatype LoginView = Loading | SetupForm | SignInForm

  /** While `adminExists` is still unknown only the loading view shows; then the setup or sign-in form. */
  function View(adminExists: Option<bool>): (v: LoginView)
    ensures v == Loading <==> adminExists.None?
    ensures v == SetupForm <==> adminExists == Some(false)
    ensures v == SignInForm <==> adminExists == Some(true)
  {
    match adminExists
    case None => Loading
    case Some(known) => if known then SignInForm else SetupForm
  }

  /** The page state, together with the two effects of a successful login: the stored token and the navigation. */
  class LoginForm {
    var password: string
    var error: string
    var isLoading: bool
    var storedToken: Option<string>
    var navigatedTo: Option<string>

    constructor (storedToken: Option<string>)
      ensures password == "" && error == "" && !isLoading
      ensures this.storedToken == storedToken && navigatedTo == None
    {
      password := "";
      error := "";
      isLoading := false;
      this.storedToken := storedToken;
      navigatedTo := None;
    }

    /** The synchronous part of `handleSubmit`: clear the error and show the spinner. The `required` password input keeps an empty password from being submitted. */
    method HandleSubmit()
      requires password != ""
      modifies this
      ensures error == "" && isLoading
      ensures password == old(password) && storedToken == old(storedToken) && navigatedTo == old(navigatedTo)
    {
      error := "";
      isLoading := true;
    }

    /** A successful login stores `token || ""` and moves to the products. */
    method SignIn(result: LoginResult)
      requires result.success
      modifies this
      ensures storedToken == Some(result.token.GetOr(""))
      ensures navigatedTo == Some(AdminRoutes.ProductsPath)
      ensures password == old(password) && error == old(error) && isLoading == old(isLoading)
    {
      storedToken := Some(result.token.GetOr(""));
      navigatedTo := Some(AdminRoutes.ProductsPath);
    }

    /**
     * The awaited part of `handleSubmit`, run against the `admins` table at time `now`.
     * `adminExists` is what the page believed when the form was submitted. A plain `Error` thrown
     * by a mutation reaches the page as the message the Convex client gives it, `clientMessage` of
     * the thrown text (wrapped with the function name and request id, or replaced by a generic
     * text, depending on the deployment).
     */
    method FinishSubmit(adminExists: bool, store: AdminStore, digest: Digest, now: nat, freshId: string,
      clientMessage: string -> string)
      modifies this, store
      ensures !isLoading && password == old(password)
      // setup branch, table already holding an admin: the setup error is shown, nothing is stored
      ensures !adminExists && old(store.admins) != [] ==>
        error == clientMessage(AdminExistsMessage) && store.admins == old(store.admins)
        && storedToken == old(storedToken) && navigatedTo == old(navigatedTo)
      // setup branch on an empty table: the new admin logs in at once
      ensures !adminExists && old(store.admins) == [] ==>
        store.admins == [Admin(freshId, HashPassword(digest, password), now)]
        && error == old(error)
        && storedToken == Some(HashPassword(digest, password + Decimal(now)))
        && navigatedTo == Some(AdminRoutes.ProductsPath)
      // login branch
      ensures adminExists ==> store.admins == old(store.admins)
      ensures adminExists && Login(old(store.admins), digest, password, now).success ==>
        storedToken == Some(HashPassword(digest, password + Decimal(now)))
        && navigatedTo == Some(AdminRoutes.ProductsPath) && error == old(error)
      ensures adminExists && !Login(old(store.admins), digest, password, now).success ==>
        error == WrongPassword && storedToken == old(storedToken) && navigatedTo == old(navigatedTo)
    {
      if !adminExists {
        var setup := store.SetupAdmin(digest, password, now, freshId);
        if setup.Thrown? {
          error := CaughtMessage(ErrorValue(clientMessage(setup.message)));
          isLoading := false;
          return;
        }
        SetupThenLogin(digest, password, freshId, now, now);
        var result := Login(store.admins, digest, password, now);
        if result.success {
          SignIn(result);
        }
      } else {
        var result := Login(store.admins, digest, password, now);
        if result.success {
          SignIn(result);
        } else {
          error := WrongPassword;
        }
      }
      isLoading := false;
    }
  }
}
