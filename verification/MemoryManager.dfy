/** The memory and checkpoint managers as they run, over one flat store. */
module MemoryManagers {
  import opened Common
  import opened Text
  import opened Memory
  import KernelModel

  /** `str(value)`, the text that is indexed. */
  function Show(v: Value): string {
    match v
    case Null => "None"
    case Number(n) => if n < 0 then "-" + Decimal(-n) else Decimal(n)
    case Text(s) => s
  }

  /** The search index holds exactly the episodic and semantic entries, as text. */
  ghost predicate Mirrors(documents: map<string, string>, m: map<string, Value>) {
    && (forall text :: text in documents <==>
          text in m && Parse(text).Some? && Parse(text).value.category in {Episodic, Semantic})
    && (forall text :: text in documents ==> documents[text] == Show(m[text]))
  }

  class MemoryManager {
    var memory: map<string, Value>
    var documents: map<string, string>
    var spaces: map<ProcessId, string> // what the space resolver answers

    function SpaceOf(p: ProcessId): string
      reads `spaces
    {
      if p in spaces then spaces[p] else DefaultSpace
    }

    ghost predicate Valid()
      reads this
    {
      && CleanStore(memory) && Mirrors(documents, memory)
      && forall p :: p in spaces ==> Free(spaces[p], ':')
    }

    constructor (spaces: map<ProcessId, string>)
      requires forall p :: p in spaces ==> Free(spaces[p], ':')
      ensures Valid() && memory == map[] && this.spaces == spaces
    {
      memory, documents, this.spaces := map[], map[], spaces;
    }

    method Store(p: ProcessId, key: string, value: Value, c: Category)
      requires Valid() && IsUuid(p)
      modifies `memory, `documents
      ensures Valid() && memory == old(memory)[Scoped(SpaceOf(p), c, p, key) := value]
    {
      hide Scoped, Parse, IsUuid, Free, Show;
      SpaceFree(this, p);
      RoundTrip(SpaceOf(p), c, p, key);
      ScopedIsClean(SpaceOf(p), c, p, key);
      var text := Scoped(SpaceOf(p), c, p, key);
      memory := memory[text := value];
      if c in {Episodic, Semantic} {
        documents := documents[text := Show(value)];
      }
    }

    /** Reads under the scoped key, then under the legacy one. */
    method Peek(p: ProcessId, key: string, c: Category, default_: Value) returns (value: Value)
      requires Valid() && IsUuid(p)
      ensures value == if Scoped(SpaceOf(p), c, p, key) in memory then memory[Scoped(SpaceOf(p), c, p, key)]
        else default_
    {
      hide Scoped, Parse, IsUuid, Legacy;
      NoLegacy(this, c, p, key);
      var candidates := [Scoped(SpaceOf(p), c, p, key), Legacy(c, p, key)];
      var i := 0;
      while i < |candidates|
        invariant 0 <= i <= |candidates| && forall j :: 0 <= j < i ==> candidates[j] !in memory
      {
        if candidates[i] in memory {
          return memory[candidates[i]];
        }
        i := i + 1;
      }
      assert candidates[0] !in memory;
      value := default_;
    }

    method Delete(p: ProcessId, key: string, c: Category)
      requires Valid() && IsUuid(p)
      modifies `memory, `documents
      ensures Valid() && memory == old(memory) - {Scoped(SpaceOf(p), c, p, key)}
    {
      hide Scoped, Parse, IsUuid, Legacy, Show;
      NoLegacy(this, c, p, key);
      var candidates := [Scoped(SpaceOf(p), c, p, key), Legacy(c, p, key)];
      var i := 0;
      while i < |candidates|
        invariant 0 <= i <= |candidates| && memory == old(memory) && documents == old(documents)
        invariant forall j :: 0 <= j < i ==> candidates[j] !in memory
      {
        if candidates[i] in memory {
          memory := memory - {candidates[i]};
          documents := documents - {candidates[i]};
          return;
        }
        i := i + 1;
      }
      assert memory == memory - {candidates[0]};
    }

    /** All working entries of a process, by short key, in whatever order the store lists them. */
    method WorkingSnapshot(p: ProcessId) returns (view: map<string, Value>)
      requires Valid() && IsUuid(p)
      ensures IsSnapshot(view, memory, SpaceOf(p), p)
    {
      hide Scoped, Parse, IsUuid, ScopedPrefix, LegacyPrefix, CleanStore, CleanKey, Free;
      var prefixes := [ScopedPrefix(SpaceOf(p), p), LegacyPrefix(p)];
      view := map[];
      var todo := memory.Keys;
      while todo != {}
        invariant todo <= memory.Keys
        invariant forall key :: key in view <==> Scoped(SpaceOf(p), Working, p, key) in memory.Keys - todo
        invariant forall key :: key in view ==> view[key] == memory[Scoped(SpaceOf(p), Working, p, key)]
        decreases |todo|
      {
        var text :| text in todo;
        OnlyScopedPrefix(this, p, text);
        assert !(prefixes[1] <= text);
        var i := 0;
        while i < |prefixes| && !(prefixes[i] <= text)
          invariant 0 <= i <= |prefixes| && forall j :: 0 <= j < i ==> !(prefixes[j] <= text)
        {
          i := i + 1;
        }
        KeyOf(SpaceOf(p), p, text);
        assert i == 2 ==> !(prefixes[0] <= text);
        if i < |prefixes| {
          view := view[text[|prefixes[i]|..] := memory[text]];
        }
        todo := todo - {text};
      }
    }
  }

  /** A checkpoint of a process: its working memory and its resource usage. */
  datatype Saved = Saved(process: ProcessId, view: map<string, Value>, usage: KernelModel.Usage)

  class CheckpointManager {
    const memory: MemoryManager
    var usage: map<ProcessId, KernelModel.Usage>
    var checkpoints: map<string, Saved>
    var byProcess: map<ProcessId, seq<string>>

    ghost predicate Valid()
      reads this, memory
    {
      memory.Valid() && forall p, id :: p in byProcess && id in byProcess[p] ==> id in checkpoints
    }

    constructor (memory: MemoryManager)
      requires memory.Valid()
      ensures Valid() && this.memory == memory && usage == map[] && checkpoints == map[] && byProcess == map[]
    {
      this.memory := memory;
      usage, checkpoints, byProcess := map[], map[], map[];
    }

    method Create(id: string, p: ProcessId)
      requires Valid() && IsUuid(p)
      modifies this
      ensures Valid()
      ensures id in checkpoints && checkpoints == old(checkpoints)[id := checkpoints[id]]
      ensures checkpoints[id].process == p && IsSnapshot(checkpoints[id].view, memory.memory, memory.SpaceOf(p), p)
      ensures checkpoints[id].usage == if p in old(usage) then old(usage)[p] else KernelModel.NoUsage
      ensures usage == old(usage)[p := checkpoints[id].usage]
      ensures byProcess == old(byProcess)[p := (if p in old(byProcess) then old(byProcess)[p] else []) + [id]]
    {
      hide IsSnapshot, CleanStore, Mirrors, IsUuid, Free;
      var used := if p in usage then usage[p] else KernelModel.NoUsage;
      usage := usage[p := used];
      var view := memory.WorkingSnapshot(p);
      checkpoints := checkpoints[id := Saved(p, view, used)];
      byProcess := byProcess[p := (if p in byProcess then byProcess[p] else []) + [id]];
    }

    method Latest(p: ProcessId) returns (found: Option<Saved>)
      requires Valid()
      ensures found == if p in byProcess
        && byProcess[p] != [] then Some(checkpoints[byProcess[p][|byProcess[p]| - 1]]) else None
    {
      if p !in byProcess || byProcess[p] == [] {
        return None;
      }
      found := Some(checkpoints[byProcess[p][|byProcess[p]| - 1]]);
    }

    /** Writes the saved entries back one by one and overwrites the usage counters. */
    method Restore(id: string, p: ProcessId) returns (found: bool)
      requires Valid() && IsUuid(p)
      modifies `usage, memory`memory, memory`documents
      ensures Valid() && (found <==> id in checkpoints)
      ensures !found ==> memory.memory == old(memory.memory) && usage == old(usage)
      ensures found ==>
        && IsRestored(memory.memory, old(memory.memory), memory.SpaceOf(p), p, checkpoints[id].view)
        && usage == old(usage)[p := checkpoints[id].usage]
    {
      hide Scoped, IsUuid, CleanStore, Mirrors, Free;
      if id !in checkpoints {
        return false;
      }
      var view := checkpoints[id].view;
      ghost var space := memory.SpaceOf(p);
      var todo := view.Keys;
      while todo != {}
        invariant Valid() && todo <= view.Keys && usage == old(usage)
        invariant forall key :: key in view.Keys - todo ==>
          Scoped(space, Working, p, key) in memory.memory && memory.memory[Scoped(space, Working, p, key)] == view[key]
        invariant forall text :: (forall key :: key in view.Keys - todo ==> text != Scoped(space, Working, p, key)) ==>
          (text in memory.memory <==> text in old(memory.memory))
            && (text in memory.memory ==> memory.memory[text] == old(memory.memory)[text])
        decreases |todo|
      {
        var key :| key in todo;
        memory.Store(p, key, view[key], Working);
        KeysApart(space, p, key);
        todo := todo - {key};
      }
      usage := usage[p := checkpoints[id].usage];
      found := true;
    }
  }

  // ------------------------------------------------------------------
  // Facts
  // ------------------------------------------------------------------

  lemma SpaceFree(m: MemoryManager, p: ProcessId)
    requires m.Valid()
    ensures Free(m.SpaceOf(p), ':')
  {
    DefaultIsFree();
  }

  lemma NoLegacy(m: MemoryManager, c: Category, p: ProcessId, key: string)
    requires m.Valid() && IsUuid(p)
    ensures Legacy(c, p, key) !in m.memory
  {
    hide Parse, IsUuid, Legacy, CleanKey;
    LegacyIsNotClean(c, p, key);
  }

  lemma OnlyScopedPrefix(m: MemoryManager, p: ProcessId, text: string)
    requires m.Valid() && IsUuid(p) && text in m.memory
    ensures !(LegacyPrefix(p) <= text)
  {
    hide Parse, IsUuid, LegacyPrefix, CleanKey, Free;
    SpaceFree(m, p);
    OwnKeysOnly(m.SpaceOf(p), p, text);
  }

  /** The short key behind the prefix. */
  lemma KeyOf(space: string, p: ProcessId, text: string)
    ensures forall key :: Scoped(space, Working, p, key) == text <==>
      ScopedPrefix(space, p) <= text && key == text[|ScopedPrefix(space, p)|..]
  {
    hide Scoped, ScopedPrefix;
    forall key ensures Scoped(space, Working, p, key) == text <==>
      ScopedPrefix(space, p) <= text && key == text[|ScopedPrefix(space, p)|..]
    {
      PrefixedKey(space, p, key);
    }
  }

  lemma KeysApart(space: string, p: ProcessId, key: string)
    ensures forall k :: Scoped(space, Working, p, k) == Scoped(space, Working, p, key) ==> k == key
  {
    hide Scoped, ScopedPrefix;
    KeyOf(space, p, Scoped(space, Working, p, key));
  }
}
