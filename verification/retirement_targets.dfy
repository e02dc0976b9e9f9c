/** Which names retirement may remove, and why none of them is preserved state. */
module RetirementTargets {

  import opened PosixPaths

  /** The fixed tables: unit names, the programs and their unit files outside the Kernel's own prefixes, and the
      immutable policy files. */
  datatype Tables = Tables(units: set<string>, programs: set<string>, unitFiles: set<string>, immutable: set<string>)

  const KERNEL_LIB := "/usr/lib/serein/kernel/"
  const PACKAGE_LIB := "/usr/lib/python3/dist-packages/serein_stage1/"
  const LIBEXEC := "/usr/libexec/serein/"
  const ETC_UNITS := "/etc/systemd/system/"
  const RUN_UNITS := "/run/systemd/system/"

  /** Absolute and its own normal form, without a parent step. */
  predicate Normal(path: string) {
    "/" <= path && Normalized(path) == path && ".." !in Parts(path)
  }

  /** So every component below the root is a real name, and a textual prefix that ends in a slash a real
      ancestor. */
  lemma NormalIff(path: string)
    requires Root(path) == "/" && path != "/"
    ensures Normal(path) <==> forall name :: name in Split(path[1..]) ==> name != "" && name != "." && name != ".."
  {
    hide Normalized, Split, Proper;
    RootedIffClean(path);
    PartsBelowRoot(path);
    ProperIsClean(Split(path[1..]));
  }

  /** A whole program or unit file outside the Kernel's own prefixes. */
  predicate Exact(t: string, tables: Tables) {
    || (exists n :: n in tables.programs && t == LIBEXEC + n)
    || (exists n :: n in tables.unitFiles && t == ETC_UNITS + n)
  }

  /** Below one of the Kernel's prefixes, and not the prefix itself. */
  predicate Prefixed(t: string) {
    KERNEL_LIB < t || PACKAGE_LIB < t || LIBEXEC + "serein-kernel-" < t || ETC_UNITS + "serein-kernel-" < t
  }

  /** retirement_payload_selection, one row. */
  predicate RowAdmitted(t: string, tables: Tables) {
    Normal(t) && t !in tables.immutable && (Exact(t, tables) || Prefixed(t))
  }

  predicate EndsWith(s: string, suffix: string) {
    |suffix| < |s| && s[|s| - |suffix|..] == suffix
  }

  /** /etc or /run, then systemd/system/<owner>.wants or .requires, then the unit. */
  predicate LinkAdmitted(path: string, unit: string) {
    && (ETC_UNITS <= path || RUN_UNITS <= path)
    && var rest := path[20..];
    && EndsWith(rest, "/" + unit)
    && var owner := rest[..|rest| - |unit| - 1];
    && '/' !in owner && (EndsWith(owner, ".wants") || EndsWith(owner, ".requires"))
  }

  predicate Public(t: string, tables: Tables) {
    RowAdmitted(t, tables) || exists u :: u in tables.units && LinkAdmitted(t, u)
  }

  predicate Under(t: string, directory: string) { t == directory || directory + "/" <= t }

  const STATE := "/var/lib/serein-outpost/kernel"
  const REPLAY := "/var/lib/serein/kernel/replay"
  const MODELS := "/var/lib/ollama/models"
  const AUTHORITY := "/var/lib/serein/kernel/authority/"
  const SELECTOR_PREFIX := "/var/lib/serein/rollback/kernel-first-install-"

  /** retirement_preservation_paths: files, and directories with all that lies below them. */
  predicate Preserved(t: string, tables: Tables, selector: string) {
    || AUTHORITY <= t || t in tables.immutable
    || t == "/etc/serein/kernel/replay-peer.env" || t == "/etc/machine-id" || t == "/etc/hostname"
    || Under(t, selector) || Under(t, REPLAY) || Under(t, STATE) || Under(t, MODELS)
  }

  /** Where the immutable policy files are. */
  predicate PolicyPlaced(tables: Tables) {
    forall t :: t in tables.immutable ==> "/etc/serein" <= t || "/usr/share/" <= t
  }

  /** Three characters tell the two kinds of names apart. */
  predicate LooksPublic(t: string) {
    && |t| > 6
    && ((t[1] == 'u' && t[5] == 'l') || (t[1] == 'e' && t[5] == 's' && t[6] == 'y') || t[1] == 'r')
  }

  lemma StartsLike(t: string, start: string)
    requires start <= t && |start| > 6
    ensures LooksPublic(t) <==> LooksPublic(start)
  {
  }

  lemma AdmittedStarts(t: string, tables: Tables)
    requires Public(t, tables)
    ensures KERNEL_LIB <= t || PACKAGE_LIB <= t || LIBEXEC <= t || ETC_UNITS <= t || RUN_UNITS <= t
  {
    hide Normal, EndsWith, KERNEL_LIB, PACKAGE_LIB, LIBEXEC, ETC_UNITS, RUN_UNITS;
    if LIBEXEC + "serein-kernel-" <= t {
      assert LIBEXEC <= LIBEXEC + "serein-kernel-";
    } else if ETC_UNITS + "serein-kernel-" <= t {
      assert ETC_UNITS <= ETC_UNITS + "serein-kernel-";
    }
  }

  lemma PublicLooks(t: string, tables: Tables)
    requires Public(t, tables)
    ensures LooksPublic(t)
  {
    hide Public, LooksPublic;
    AdmittedStarts(t, tables);
    PublicConstants();
    if KERNEL_LIB <= t { StartsLike(t, KERNEL_LIB); }
    else if PACKAGE_LIB <= t { StartsLike(t, PACKAGE_LIB); }
    else if LIBEXEC <= t { StartsLike(t, LIBEXEC); }
    else if ETC_UNITS <= t { StartsLike(t, ETC_UNITS); }
    else { StartsLike(t, RUN_UNITS); }
  }

  lemma PublicConstants()
    ensures LooksPublic(KERNEL_LIB) && LooksPublic(PACKAGE_LIB) && LooksPublic(LIBEXEC)
    ensures LooksPublic(ETC_UNITS) && LooksPublic(RUN_UNITS)
  {
  }

  lemma PreservedConstants()
    ensures !LooksPublic(STATE) && !LooksPublic(REPLAY) && !LooksPublic(MODELS) && !LooksPublic(AUTHORITY)
    ensures !LooksPublic(SELECTOR_PREFIX) && !LooksPublic("/etc/serein") && !LooksPublic("/usr/share/")
    ensures !LooksPublic("/etc/machine-id") && !LooksPublic("/etc/hostname")
    ensures !LooksPublic("/etc/serein/kernel/replay-peer.env")
  {
  }

  lemma PreservedDoesNot(t: string, tables: Tables, selector: string)
    requires PolicyPlaced(tables) && SELECTOR_PREFIX <= selector && Preserved(t, tables, selector)
    ensures !LooksPublic(t)
  {
    hide LooksPublic;
    PreservedConstants();
    if Under(t, selector) {
      StartsLike(t, selector);
      StartsLike(selector, SELECTOR_PREFIX);
    } else if AUTHORITY <= t { StartsLike(t, AUTHORITY); }
    else if Under(t, REPLAY) { StartsLike(t, REPLAY); }
    else if Under(t, STATE) { StartsLike(t, STATE); }
    else if Under(t, MODELS) { StartsLike(t, MODELS); }
    else if t in tables.immutable {
      if "/etc/serein" <= t { StartsLike(t, "/etc/serein"); } else { StartsLike(t, "/usr/share/"); }
    }
  }

  /** No name that retirement may remove is a preserved file or lies in a preserved directory. */
  lemma RemovalsSparePreservedState(t: string, tables: Tables, selector: string)
    requires PolicyPlaced(tables) && SELECTOR_PREFIX <= selector && Public(t, tables)
    ensures !Preserved(t, tables, selector)
    ensures t !in tables.immutable && !("/var/lib/serein/kernel/authority/" <= t)
    ensures t !in {"/etc/serein/kernel/replay-peer.env", "/etc/machine-id", "/etc/hostname"}
    ensures forall d ::
              d in {selector, "/var/lib/serein/kernel/replay", "/var/lib/serein-outpost/kernel",
                    "/var/lib/ollama/models"}
              ==> t != d && !(d + "/" <= t)
  {
    PublicLooks(t, tables);
    if Preserved(t, tables, selector) {
      PreservedDoesNot(t, tables, selector);
    }
  }
}
