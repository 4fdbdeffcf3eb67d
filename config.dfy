/**
 * The option table of `VideoExtension`: fourteen `[value, description]`
 * settings, overridden by the options the user supplies.
 */
module Config {
  import opened Wrappers

  /** One `[value, description]` entry of the table. */
  datatype Setting = Setting(value: string, description: string)

  type Table = map<string, Setting>

  /** `setConfig` on a key the table does not have raises `KeyError`. */
  datatype ConfigError = UnknownOption(key: string)

  /** The option names, in the order the table lists them. */
  const OptionNames: seq<string> := [
    "dailymotion_width", "dailymotion_height",
    "gametrailers_width", "gametrailers_height",
    "metacafe_width", "metacafe_height",
    "veoh_width", "veoh_height",
    "vimeo_width", "vimeo_height",
    "yahoo_width", "yahoo_height",
    "youtube_width", "youtube_height"]

  /** The table `__init__` starts from. */
  function Defaults(): (t: Table)
    ensures t.Keys == set k | k in OptionNames
  {
    map[
      "dailymotion_width" := Setting("480", "Width for Dailymotion videos"),
      "dailymotion_height" := Setting("270", "Height for Dailymotion videos"),
      "gametrailers_width" := Setting("512", "Width for Gametrailers videos"),
      "gametrailers_height" := Setting("288", "Height for Gametrailers videos"),
      "metacafe_width" := Setting("440", "Width for Metacafe videos"),
      "metacafe_height" := Setting("248", "Height for Metacafe videos"),
      "veoh_width" := Setting("410", "Width for Veoh videos"),
      "veoh_height" := Setting("341", "Height for Veoh videos"),
      "vimeo_width" := Setting("500", "Width for Vimeo videos"),
      "vimeo_height" := Setting("321", "Height for Vimeo videos"),
      "yahoo_width" := Setting("640", "Width for Yahoo! videos"),
      "yahoo_height" := Setting("360", "Height for Yahoo! videos"),
      "youtube_width" := Setting("420", "Width for Youtube videos"),
      "youtube_height" := Setting("315", "Height for Youtube videos")]
  }

  /** Every option a recognizer may read is in the table. */
  ghost predicate Complete(t: Table)
  {
    forall k :: k in OptionNames ==> k in t
  }

  /** `setConfig(key, value)`: replace the value slot of an existing option, keeping its description. */
  function SetConfig(t: Table, key: string, value: string): (r: Result<Table, ConfigError>)
    ensures r.Failure? <==> key !in t
    ensures r.Failure? ==> r.error == UnknownOption(key)
    ensures r.Success? ==> r.value.Keys == t.Keys && r.value[key] == Setting(value, t[key].description)
    ensures r.Success? ==> forall k :: k in t && k != key ==> r.value[k] == t[k]
  {
    if key in t then Success(t[key := Setting(value, t[key].description)]) else Failure(UnknownOption(key))
  }

  /**
   * The override loop of `__init__`: `setConfig` on each supplied option in turn;
   * the first unknown option raises and the extension is never built.
   */
  function Override(t: Table, options: seq<(string, string)>): Result<Table, ConfigError>
  {
    if options == [] then Success(t)
    else
      match Override(t, options[..|options| - 1])
      case Failure(e) => Failure(e)
      case Success(u) => SetConfig(u, options[|options| - 1].0, options[|options| - 1].1)
  }

  /** The value last supplied for `key`, if any. */
  function Supplied(options: seq<(string, string)>, key: string): (r: Option<string>)
    ensures r.None? <==> forall i :: 0 <= i < |options| ==> options[i].0 != key
    ensures r.Some? ==> exists i ::
              && 0 <= i < |options| && options[i] == (key, r.value)
              && forall j :: i < j < |options| ==> options[j].0 != key
  {
    if options == [] then None
    else if options[|options| - 1].0 == key then Some(options[|options| - 1].1)
    else Supplied(options[..|options| - 1], key)
  }

  /** The override succeeds exactly when every supplied option is a known one. */
  lemma {:induction false} OverrideSucceedsIff(t: Table, options: seq<(string, string)>)
    ensures Override(t, options).Success? <==> forall i :: 0 <= i < |options| ==> options[i].0 in t
  {
    if options != [] {
      var init := options[..|options| - 1];
      OverrideSucceedsIff(t, init);
      if Override(t, init).Success? {
        OverrideKeepsOptions(t, init);
      }
      assert forall i :: 0 <= i < |init| ==> init[i] == options[i];
    }
  }

  /** The first unknown option, in the order supplied, is the one reported. */
  lemma {:induction false} OverrideReportsFirstUnknown(t: Table, options: seq<(string, string)>)
    requires Override(t, options).Failure?
    ensures exists i ::
              && 0 <= i < |options|
              && Override(t, options).error == UnknownOption(options[i].0)
              && options[i].0 !in t
              && forall j :: 0 <= j < i ==> options[j].0 in t
  {
    var init := options[..|options| - 1];
    assert forall j :: 0 <= j < |init| ==> init[j] == options[j];
    if Override(t, init).Failure? {
      OverrideReportsFirstUnknown(t, init);
    } else {
      OverrideSucceedsIff(t, init);
      OverrideKeepsOptions(t, init);
      assert options[|options| - 1].0 !in t;
    }
  }

  /** Once a prefix of the options has failed, the whole override fails with the same error. */
  lemma {:induction false} OverrideFailureStays(t: Table, options: seq<(string, string)>, n: nat)
    requires n <= |options| && Override(t, options[..n]).Failure?
    ensures Override(t, options) == Override(t, options[..n])
    decreases |options| - n
  {
    if n < |options| {
      assert options[..n + 1][..n] == options[..n];
      OverrideFailureStays(t, options, n + 1);
    } else {
      assert options[..n] == options;
    }
  }

  /** A successful override keeps the option names and every description. */
  lemma {:induction false} OverrideKeepsOptions(t: Table, options: seq<(string, string)>)
    requires Override(t, options).Success?
    ensures Override(t, options).value.Keys == t.Keys
    ensures forall k :: k in t ==> Override(t, options).value[k].description == t[k].description
  {
    if options != [] {
      OverrideKeepsOptions(t, options[..|options| - 1]);
    }
  }

  /** After a successful override each option holds the value last supplied for it, or else its default. */
  lemma {:induction false} OverrideValues(t: Table, options: seq<(string, string)>, key: string)
    requires Override(t, options).Success? && key in t
    ensures var u := Override(t, options).value;
      key in u && u[key].value == match Supplied(options, key) case Some(v) => v case None => t[key].value
  {
    if options != [] {
      var init := options[..|options| - 1];
      OverrideValues(t, init, key);
      OverrideKeepsOptions(t, init);
    }
  }

  /** The extension object; `config` is its option table. */
  class VideoExtension {
    var config: Table

    ghost predicate Valid()
      reads this
    {
      Complete(config)
    }

    /** `__init__` with no options supplied. */
    constructor ()
      ensures config == Defaults() && Valid()
    {
      config := Defaults();
    }

    /** `setConfig`: on an unknown option nothing changes and the error is returned. */
    method SetOption(key: string, value: string) returns (r: Result<(), ConfigError>)
      modifies this
      ensures SetConfig(old(config), key, value).Success? ==> r == Success(()) && config == SetConfig(old(config), key, value).value
      ensures SetConfig(old(config), key, value).Failure? ==> r == Failure(UnknownOption(key)) && config == old(config)
      ensures config.Keys == old(config).Keys
      ensures old(Valid()) ==> Valid()
    {
      if key in config {
        config := config[key := Setting(value, config[key].description)];
        r := Success(());
      } else {
        r := Failure(UnknownOption(key));
      }
    }

    /** The override loop: apply the supplied options in order, stopping at the first unknown one. */
    method Configure(options: seq<(string, string)>) returns (r: Result<(), ConfigError>)
      modifies this
      ensures r.Success? <==> Override(old(config), options).Success?
      ensures r.Success? ==> config == Override(old(config), options).value
      ensures r.Failure? ==> r.error == Override(old(config), options).error
      ensures config.Keys == old(config).Keys
      ensures old(Valid()) ==> Valid()
    {
      var i := 0;
      while i < |options|
        invariant 0 <= i <= |options|
        invariant Override(old(config), options[..i]) == Success(config)
        invariant config.Keys == old(config).Keys
      {
        assert options[..i + 1][..i] == options[..i];
        var step := SetOption(options[i].0, options[i].1);
        if step.Failure? {
          OverrideFailureStays(old(config), options, i + 1);
          return Failure(step.error);
        }
        i := i + 1;
      }
      assert options[..i] == options;
      r := Success(());
    }
  }

  /** `VideoExtension(**configs)`: the defaults overridden by `options`, or the error `setConfig` raised. */
  method NewVideoExtension(options: seq<(string, string)>) returns (r: Result<VideoExtension, ConfigError>)
    ensures Override(Defaults(), options).Success? <==> r.Success?
    ensures r.Success? ==> fresh(r.value) && r.value.Valid() && r.value.config == Override(Defaults(), options).value
    ensures r.Failure? ==> r.error == Override(Defaults(), options).error
  {
    var ext := new VideoExtension();
    var done := ext.Configure(options);
    if done.Failure? {
      return Failure(done.error);
    }
    OverrideKeepsOptions(Defaults(), options);
    r := Success(ext);
  }
}
