/**
 * The two-screen flow of the app: the login screen's button handler, the main
 * menu's entry hook, volume slider and back button, and the state they share
 * through the running app (the entered user name and the background sound).
 *
 * Widget properties are fields of one object: the screen manager's current
 * screen and transition direction, the two text inputs, the error label's
 * visibility, the welcome label's text and the background sound.
 */
module Screens {
  import opened Wrappers

  /** The two screens registered with the screen manager ("login", "main_menu"). */
  datatype Screen = Login | MainMenu

  /** The travel direction of the screen transition. */
  datatype Direction = Left | Right

  /** The state of the loaded background sound that the app controls. */
  datatype Sound = Sound(playing: bool, loop: bool, volume: real)

  /** ASCII upper-casing of one character; every other character is kept. */
  function UpperChar(c: char): (u: char)
    ensures 'a' <= c <= 'z' ==> u as int == c as int - 32
    ensures !('a' <= c <= 'z') ==> u == c
    ensures !('a' <= u <= 'z')
  {
    if 'a' <= c <= 'z' then (c as int - 32) as char else c
  }

  /** `str.upper` restricted to ASCII letters, character by character. */
  function Upper(s: string): (r: string)
    ensures |r| == |s|
    ensures forall i :: 0 <= i < |s| ==> r[i] == UpperChar(s[i])
  {
    if s == [] then [] else [UpperChar(s[0])] + Upper(s[1..])
  }

  /** Upper-casing twice is upper-casing once. */
  lemma UpperIdempotent(s: string)
    ensures Upper(Upper(s)) == Upper(s)
  {
  }

  /** The name greeted on the main menu: the user name, or "Guest" when it is empty. */
  function DisplayName(userName: string): (n: string)
    ensures n != ""
    ensures userName == "" ==> n == "Guest"
    ensures userName != "" ==> n == userName
  {
    if userName == "" then "Guest" else userName
  }

  /** The welcome label's text: the greeted name upper-cased, followed by "!". */
  function Welcome(userName: string): (r: string)
    ensures |r| == |DisplayName(userName)| + 1 >= 2
    ensures r[|r| - 1] == '!'
    ensures forall i :: 0 <= i < |r| - 1 ==> r[i] == UpperChar(DisplayName(userName)[i])
    ensures forall i :: 0 <= i < |r| ==> !('a' <= r[i] <= 'z')
  {
    Upper(DisplayName(userName)) + "!"
  }

  /** Names that differ only in ASCII letter case get the same greeting. */
  lemma WelcomeIgnoresCase(userName: string)
    ensures Welcome(Upper(userName)) == Welcome(userName)
  {
  }

  /** Sample greetings for "" and "ana". */
  lemma WelcomeExamples()
    ensures Welcome("") == "GUEST!"
    ensures Welcome("ana") == "ANA!"
  {
  }

  /** The sound volume for a slider value: the value scaled from 0-100 to 0-1, unclamped. */
  function Volume(value: real): (v: real)
    ensures v * 100.0 == value
    ensures 0.0 <= value <= 100.0 <==> 0.0 <= v <= 1.0
  {
    value / 100.0
  }

  /** Sample slider values 50, 0 and 100. */
  lemma VolumeExamples()
    ensures Volume(50.0) == 0.5 && Volume(0.0) == 0.0 && Volume(100.0) == 1.0
  {
  }

  /** The application: the screen manager, the widgets the handlers touch, and the shared state. */
  class SimpleApp {
    var current: Screen
    var direction: Direction
    var userName: string
    var userField: string
    var phoneField: string
    var errorVisible: bool
    var welcomeText: string
    var sound: Option<Sound>

    /** Whether the background sound is present and playing. */
    predicate Playing()
      reads this
    {
      sound.Some? && sound.value.playing
    }

    /** On the login screen the welcome label is empty and no music plays. */
    ghost predicate Valid()
      reads this
    {
      current == Login ==> welcomeText == "" && !Playing()
    }

    /**
     * Startup: `loaded` is what loading the sound file produced (None when
     * the file was missing or unsupported); the login screen is shown first.
     */
    constructor (loaded: Option<Sound>)
      requires loaded.Some? ==> !loaded.value.playing
      ensures Valid()
      ensures current == Login && direction == Left
      ensures userName == "" && userField == "" && phoneField == ""
      ensures !errorVisible && welcomeText == ""
      ensures sound == loaded
    {
      current := Login;
      direction := Left;
      userName := "";
      userField := "";
      phoneField := "";
      errorVisible := false;
      welcomeText := "";
      sound := loaded;
    }

    /**
     * The login button: the user name field is always copied into the shared
     * user name; a non-empty name hides the error, clears both fields and
     * moves to the main menu, an empty one shows the error and stays.
     */
    method Submit()
      requires Valid()
      modifies this
      ensures Valid()
      ensures userName == old(userField)
      ensures old(userField) != "" ==>
        !errorVisible && userField == "" && phoneField == "" &&
        direction == Right && current == MainMenu
      ensures old(userField) == "" ==>
        errorVisible && userField == old(userField) && phoneField == old(phoneField) &&
        direction == old(direction) && current == old(current)
      ensures welcomeText == old(welcomeText) && sound == old(sound)
    {
      userName := userField;
      if userField != "" {
        errorVisible := false;
        userField := "";
        phoneField := "";
        direction := Right;
        current := MainMenu;
      } else {
        errorVisible := true;
      }
    }

    /**
     * The main menu's entry hook, run once the main menu has become the
     * current screen: shows the greeting and, when the sound is present,
     * loops and plays it at the volume of the slider's current value.
     */
    method Enter(slider: real)
      requires Valid() && current == MainMenu
      modifies this
      ensures Valid()
      ensures welcomeText == Welcome(userName)
      ensures sound == if old(sound).Some? then Some(Sound(true, true, Volume(slider))) else None
      ensures current == old(current) && direction == old(direction)
      ensures userName == old(userName) && userField == old(userField) && phoneField == old(phoneField)
      ensures errorVisible == old(errorVisible)
    {
      welcomeText := Welcome(userName);
      if sound.Some? {
        sound := Some(sound.value.(loop := true));
        sound := Some(sound.value.(playing := true));
        sound := Some(sound.value.(volume := Volume(slider)));
      }
    }

    /** The volume slider: sets the sound's volume to the scaled value, if the sound is present. */
    method SetVolume(value: real)
      requires Valid()
      modifies this
      ensures Valid()
      ensures sound == if old(sound).Some? then Some(old(sound).value.(volume := Volume(value))) else None
      ensures current == old(current) && direction == old(direction) && welcomeText == old(welcomeText)
      ensures userName == old(userName) && userField == old(userField) && phoneField == old(phoneField)
      ensures errorVisible == old(errorVisible)
    {
      if sound.Some? {
        sound := Some(sound.value.(volume := Volume(value)));
      }
    }

    /**
     * The back button: returns to the login screen, clears the greeting and
     * stops the sound, keeping its loop flag and volume.
     */
    method GoBack()
      requires Valid()
      modifies this
      ensures Valid()
      ensures direction == Left && current == Login && welcomeText == ""
      ensures sound == if old(sound).Some? then Some(old(sound).value.(playing := false)) else None
      ensures userName == old(userName) && userField == old(userField) && phoneField == old(phoneField)
      ensures errorVisible == old(errorVisible)
    {
      direction := Left;
      current := Login;
      welcomeText := "";
      if sound.Some? {
        sound := Some(sound.value.(playing := false));
      }
    }
  }

  /**
   * Log in with a non-empty name, enter the main menu, go back: the menu
   * greets the name and plays the sound exactly when it was loaded; back on
   * the login screen the greeting is cleared, the music stopped and the name
   * still remembered.
   */
  method LoginRoundTrip(loaded: Option<Sound>, name: string, phone: string, slider: real)
    returns (greeting: string, playingInMenu: bool, screenAfter: Screen,
             welcomeAfter: string, playingAfter: bool, remembered: string)
    requires name != ""
    requires loaded.Some? ==> !loaded.value.playing
    ensures greeting == Welcome(name) && playingInMenu == loaded.Some?
    ensures screenAfter == Login && welcomeAfter == "" && !playingAfter
    ensures remembered == name
  {
    var app := new SimpleApp(loaded);
    app.userField, app.phoneField := name, phone;
    app.Submit();
    app.Enter(slider);
    greeting, playingInMenu := app.welcomeText, app.Playing();
    app.GoBack();
    screenAfter, welcomeAfter, playingAfter, remembered := app.current, app.welcomeText, app.Playing(), app.userName;
  }

  /**
   * After a successful login and a return to the login screen, an empty
   * submission stays on the login screen, shows the error, keeps the phone
   * field and overwrites the remembered name with the empty string.
   */
  method EmptyLoginRejected(loaded: Option<Sound>, name: string, phone: string)
    returns (screen: Screen, errorShown: bool, remembered: string, phoneKept: string)
    requires name != ""
    requires loaded.Some? ==> !loaded.value.playing
    ensures screen == Login && errorShown && remembered == "" && phoneKept == phone
  {
    var app := new SimpleApp(loaded);
    app.userField := name;
    app.Submit();
    app.GoBack();
    app.phoneField := phone;
    app.Submit();
    screen, errorShown, remembered, phoneKept := app.current, app.errorVisible, app.userName, app.phoneField;
  }
}
