/**
 * The companion plugin's main file (kawaiiultra-functionality.php): the fallback
 * class autoloader, the singleton and the activation hook.
 */
module PluginBootstrap {
  import opened Wrappers
  import opened Php
  import opened Strings
  import WordPress

  // ---------------------------------------------------------------------------
  // The fallback autoloader
  // ---------------------------------------------------------------------------

  /** The namespace prefix the fallback autoloader serves: `KawaiiUltra\Functionality\`. */
  const Prefix: string := "KawaiiUltra\\Functionality\\"

  /** Which autoloader the plugin installs. */
  datatype Autoloader = ComposerAutoloader | FallbackAutoloader

  /** Composer's autoloader when vendor/autoload.php exists, otherwise the fallback. */
  function ChooseAutoloader(vendorAutoloadExists: bool): (r: Autoloader)
    ensures r == FallbackAutoloader <==> !vendorAutoloadExists
  {
    if vendorAutoloadExists then ComposerAutoloader else FallbackAutoloader
  }

  /**
   * The file the fallback autoloader maps a class name to: nothing outside the
   * prefix, otherwise `inc/` plus the relative name with backslashes as slashes, plus `.php`.
   */
  function AutoloadPath(pluginDir: string, className: string): (r: Option<string>)
    ensures r.None? <==> !(Prefix <= className)
    ensures r.Some? ==> r.value == pluginDir + "inc/" + ReplaceChar(className[|Prefix|..], '\\', '/') + ".php"
  {
    if Prefix <= className then
      Some(pluginDir + "inc/" + ReplaceChar(className[|Prefix|..], '\\', '/') + ".php")
    else None
  }

  /** A mapped path ends in `.php` and its part after `inc/` holds no backslash. */
  lemma AutoloadPathShape(pluginDir: string, className: string)
    requires Prefix <= className
    ensures var path := AutoloadPath(pluginDir, className).value;
      |path| >= |pluginDir| + 8 && path[|path| - 4..] == ".php" &&
      forall i :: |pluginDir| + 4 <= i < |path| ==> path[i] != '\\'
  {
    var rel := ReplaceChar(className[|Prefix|..], '\\', '/');
    var path := pluginDir + "inc/" + rel + ".php";
    assert path[|path| - 4..] == ".php";
    forall i | |pluginDir| + 4 <= i < |path| ensures path[i] != '\\' {
      if i < |pluginDir| + 4 + |rel| {
        assert path[i] == rel[i - |pluginDir| - 4];
      } else {
        assert path[i] == ".php"[i - |pluginDir| - 4 - |rel|];
      }
    }
  }

  /** `KawaiiUltra\Functionality\Core\Plugin` is loaded from `inc/Core/Plugin.php`. */
  lemma CorePluginPath(pluginDir: string)
    ensures AutoloadPath(pluginDir, "KawaiiUltra\\Functionality\\Core\\Plugin") == Some(pluginDir + "inc/Core/Plugin.php")
  {
    var name := "KawaiiUltra\\Functionality\\Core\\Plugin";
    assert Prefix <= name;
    assert name[|Prefix|..] == "Core\\Plugin";
    assert ReplaceChar("Core\\Plugin", '\\', '/') == "Core/Plugin";
    assert pluginDir + "inc/" + "Core/Plugin" + ".php" == pluginDir + "inc/Core/Plugin.php";
  }

  /** Two classes whose relative names contain no '/' never share a file. */
  lemma AutoloadPathInjective(pluginDir: string, a: string, b: string)
    requires Prefix <= a && Prefix <= b
    requires '/' !in a[|Prefix|..] && '/' !in b[|Prefix|..]
    requires AutoloadPath(pluginDir, a) == AutoloadPath(pluginDir, b)
    ensures a == b
  {
    var ra := a[|Prefix|..];
    var rb := b[|Prefix|..];
    var ma := ReplaceChar(ra, '\\', '/');
    var mb := ReplaceChar(rb, '\\', '/');
    var head := pluginDir + "inc/";
    assert head + ma + ".php" == head + mb + ".php";
    assert |ma| == |mb|;
    assert ma == (head + ma + ".php")[|head|..|head| + |ma|];
    assert mb == (head + mb + ".php")[|head|..|head| + |mb|];
    forall i | 0 <= i < |ra| ensures ra[i] == rb[i] {
      assert ma[i] == mb[i];
      assert ra[i] != '/' && rb[i] != '/';
    }
    assert ra == rb;
    assert a == Prefix + ra && b == Prefix + rb;
  }

  /** The fallback autoloader's callback: the file it requires, if any. */
  method Autoload(fileExists: string -> bool, pluginDir: string, className: string) returns (required: Option<string>)
    ensures required.Some? ==> AutoloadPath(pluginDir, className) == required && fileExists(required.value)
    ensures required.None? ==> AutoloadPath(pluginDir, className).None? || !fileExists(AutoloadPath(pluginDir, className).value)
  {
    var path := AutoloadPath(pluginDir, className);
    if path.None? {
      return None;
    }
    if fileExists(path.value) {
      required := path;
    } else {
      required := None;
    }
  }

  // ---------------------------------------------------------------------------
  // The singleton and its hooks
  // ---------------------------------------------------------------------------

  /** A hook registration: the hook and the method it calls. */
  datatype Hook = Hook(hookName: string, callback: string)

  /** The plugin object; its constructor registers the three hooks. */
  class Functionality {
    const hooks: seq<Hook>

    constructor ()
      ensures hooks == [Hook("plugins_loaded", "init"), Hook("activate", "activate"), Hook("deactivate", "deactivate")]
    {
      hooks := [Hook("plugins_loaded", "init"), Hook("activate", "activate"), Hook("deactivate", "deactivate")];
    }
  }

  /** The class's static state: `self::$instance`, and how many times the constructor ran. */
  class Runtime {
    var instance: Functionality?
    var constructed: nat

    constructor ()
      ensures instance == null && constructed == 0
    {
      instance := null;
      constructed := 0;
    }

    /** `get_instance`: construct on the first call, return the stored object after. */
    method GetInstance() returns (f: Functionality)
      modifies this
      ensures instance == f
      ensures old(instance) != null ==> f == old(instance) && constructed == old(constructed)
      ensures old(instance) == null ==> fresh(f) && constructed == old(constructed) + 1
    {
      if instance == null {
        instance := new Functionality();
        constructed := constructed + 1;
      }
      f := instance;
    }
  }

  /** However often it is called, `get_instance` hands out one object, constructed once. */
  method GetInstanceTwice() returns (same: bool, constructions: nat)
    ensures same && constructions == 1
  {
    var runtime := new Runtime();
    var first := runtime.GetInstance();
    var second := runtime.GetInstance();
    same := first == second;
    constructions := runtime.constructed;
  }

  // ---------------------------------------------------------------------------
  // Activation
  // ---------------------------------------------------------------------------

  const ActivatedTransient := "kawaiiultra_functionality_activated"

  /** `activate`: set the activation flag (rewrite-rule flushing is not modelled). */
  method Activate(store: WordPress.TransientStore)
    modifies store
    ensures store.values == old(store.values)[ActivatedTransient := Bool(true)]
    ensures Truthy(store.Get(ActivatedTransient))
  {
    store.Set(ActivatedTransient, Bool(true));
  }
}
