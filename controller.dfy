/**
  The undoable command that points a map at another entity definition file.

  The map's entity definition file is recorded as a property of its
  worldspawn entity. Doing the command remembers the document's current
  specification and writes the new one's string form under that property;
  undoing it writes the remembered one back. Observers of the document are
  told before and after the worldspawn changes, and then that the entity
  definitions changed.

  The specification type is the type parameter `Spec`. How a specification
  is written as a string (`asString`) and how the document reads its current
  specification from the worldspawn properties (`entityDefinitionFile()`)
  are not part of this model; they are function values the command and the
  document are built with.
 */
module Controller {

  /** The worldspawn property key under which the entity definition file is stored. */
  const EntityDefinitionsKey: string := "_tb_def"

  /** An entity of the map; only its property map matters here. */
  class Entity {
    var properties: map<string, string>

    constructor (properties: map<string, string>)
      ensures this.properties == properties
    {
      this.properties := properties;
    }

    /** Sets `key` to `value`, adding the key when it is missing. */
    method AddOrUpdateProperty(key: string, value: string)
      modifies this
      ensures properties == old(properties)[key := value]
    {
      properties := properties[key := value];
    }
  }

  /**
    What the document's observers are told. The object notifications record
    the properties the entity had when they went out, which is what an
    observer reading the entity at that moment would find.
   */
  datatype Notification =
    | ObjectWillChange(entity: Entity, seen: map<string, string>)
    | ObjectDidChange(entity: Entity, seen: map<string, string>)
    | EntityDefinitionsDidChange

  /** The notifications of one do or one undo, in the order they are sent. */
  function ChangeNotifications(worldspawn: Entity, before: map<string, string>, after: map<string, string>): seq<Notification>
  {
    [ObjectWillChange(worldspawn, before), ObjectDidChange(worldspawn, after), EntityDefinitionsDidChange]
  }

  /** The part of the map document the command uses. */
  class MapDocument<Spec> {
    const worldspawn: Entity
    const entityDefinitionFileOf: map<string, string> -> Spec
    var notifications: seq<Notification>

    constructor (worldspawn: Entity, entityDefinitionFileOf: map<string, string> -> Spec)
      ensures this.worldspawn == worldspawn && this.entityDefinitionFileOf == entityDefinitionFileOf
      ensures notifications == []
    {
      this.worldspawn := worldspawn;
      this.entityDefinitionFileOf := entityDefinitionFileOf;
      notifications := [];
    }

    /** The entity definition file the map currently names. */
    function EntityDefinitionFile(): Spec
      reads worldspawn
    {
      entityDefinitionFileOf(worldspawn.properties)
    }

    method ObjectWillChangeNotifier(entity: Entity)
      modifies this
      ensures notifications == old(notifications) + [ObjectWillChange(entity, entity.properties)]
    {
      notifications := notifications + [ObjectWillChange(entity, entity.properties)];
    }

    method ObjectDidChangeNotifier(entity: Entity)
      modifies this
      ensures notifications == old(notifications) + [ObjectDidChange(entity, entity.properties)]
    {
      notifications := notifications + [ObjectDidChange(entity, entity.properties)];
    }

    method EntityDefinitionsDidChangeNotifier()
      modifies this
      ensures notifications == old(notifications) + [EntityDefinitionsDidChange]
    {
      notifications := notifications + [EntityDefinitionsDidChange];
    }
  }

  class SetEntityDefinitionFileCommand<Spec(0)> {
    const document: MapDocument<Spec>
    const newSpec: Spec
    const asString: Spec -> string
    const name: string
    const undoable: bool
    const updateModificationCount: bool
    // the specification the document had when the command was last done
    var oldSpec: Spec

    constructor (document: MapDocument<Spec>, spec: Spec, asString: Spec -> string)
      ensures this.document == document && newSpec == spec && this.asString == asString
      ensures name == "Set Entity Definition File" && undoable && updateModificationCount
    {
      this.document := document;
      this.newSpec := spec;
      this.asString := asString;
      this.name := "Set Entity Definition File";
      this.undoable := true;
      this.updateModificationCount := true;
    }

    /**
      Remembers the document's current specification and stores the new one
      under the entity definitions key; no other property changes.
     */
    method DoPerformDo() returns (success: bool)
      modifies this, document, document.worldspawn
      ensures success
      ensures oldSpec == old(document.EntityDefinitionFile())
      ensures document.worldspawn.properties ==
        old(document.worldspawn.properties)[EntityDefinitionsKey := asString(newSpec)]
      ensures document.notifications == old(document.notifications) +
        ChangeNotifications(document.worldspawn, old(document.worldspawn.properties), document.worldspawn.properties)
    {
      var worldspawn := document.worldspawn;
      document.ObjectWillChangeNotifier(worldspawn);
      oldSpec := document.EntityDefinitionFile();
      worldspawn.AddOrUpdateProperty(EntityDefinitionsKey, asString(newSpec));
      document.ObjectDidChangeNotifier(worldspawn);
      document.EntityDefinitionsDidChangeNotifier();
      success := true;
    }

    /** Stores the remembered specification under the entity definitions key again. */
    method DoPerformUndo() returns (success: bool)
      modifies document, document.worldspawn
      ensures success
      ensures document.worldspawn.properties ==
        old(document.worldspawn.properties)[EntityDefinitionsKey := asString(oldSpec)]
      ensures document.notifications == old(document.notifications) +
        ChangeNotifications(document.worldspawn, old(document.worldspawn.properties), document.worldspawn.properties)
    {
      var worldspawn := document.worldspawn;
      document.ObjectWillChangeNotifier(worldspawn);
      worldspawn.AddOrUpdateProperty(EntityDefinitionsKey, asString(oldSpec));
      document.ObjectDidChangeNotifier(worldspawn);
      document.EntityDefinitionsDidChangeNotifier();
      success := true;
    }

    /** The command never merges with a following command. */
    function DoCollateWith(command: object): (collated: bool)
      ensures !collated
    {
      false
    }
  }

  /**
    The worldspawn reads back the specification it was read from: the key is
    present and writing the specification it denotes gives the stored string
    again.
   */
  ghost predicate RoundTrips<Spec>(properties: map<string, string>, asString: Spec -> string,
                                   entityDefinitionFileOf: map<string, string> -> Spec)
  {
    EntityDefinitionsKey in properties
    && asString(entityDefinitionFileOf(properties)) == properties[EntityDefinitionsKey]
  }

  /** Writing a new value under a key and then the old value again restores the map. */
  lemma WriteBackRestores(properties: map<string, string>, key: string, value: string)
    requires key in properties
    ensures properties[key := value][key := properties[key]] == properties
  {
  }

  /** Writing under a key that was missing cannot restore the map: the key stays. */
  lemma WriteBackKeepsMissingKey(properties: map<string, string>, key: string, value: string, restored: string)
    requires key !in properties
    ensures key in properties[key := value][key := restored]
    ensures properties[key := value][key := restored] != properties
  {
  }

  /**
    Doing and then undoing the command leaves the worldspawn properties as
    they were, provided the stored specification reads back as itself, and
    sends the notifications of the do and then those of the undo.
   */
  method DoThenUndo<Spec(0)>(command: SetEntityDefinitionFileCommand<Spec>)
    requires RoundTrips(command.document.worldspawn.properties, command.asString, command.document.entityDefinitionFileOf)
    modifies command, command.document, command.document.worldspawn
    ensures command.document.worldspawn.properties == old(command.document.worldspawn.properties)
    ensures command.document.notifications == old(command.document.notifications)
      + ChangeNotifications(command.document.worldspawn, old(command.document.worldspawn.properties),
                            old(command.document.worldspawn.properties)[EntityDefinitionsKey := command.asString(command.newSpec)])
      + ChangeNotifications(command.document.worldspawn,
                            old(command.document.worldspawn.properties)[EntityDefinitionsKey := command.asString(command.newSpec)],
                            old(command.document.worldspawn.properties))
  {
    var worldspawn := command.document.worldspawn;
    ghost var original := worldspawn.properties;
    var done := command.DoPerformDo();
    var undone := command.DoPerformUndo();
    WriteBackRestores(original, EntityDefinitionsKey, command.asString(command.newSpec));
  }

  /**
    When the worldspawn had no entity definitions property, doing and then
    undoing the command does not restore its properties: the undo writes the
    remembered specification's string, so the key stays present.
   */
  method DoThenUndoKeepsAddedKey<Spec(0)>(command: SetEntityDefinitionFileCommand<Spec>)
    requires EntityDefinitionsKey !in command.document.worldspawn.properties
    modifies command, command.document, command.document.worldspawn
    ensures EntityDefinitionsKey in command.document.worldspawn.properties
    ensures command.document.worldspawn.properties ==
      old(command.document.worldspawn.properties)[EntityDefinitionsKey := command.asString(command.oldSpec)]
    ensures command.document.worldspawn.properties != old(command.document.worldspawn.properties)
  {
    var worldspawn := command.document.worldspawn;
    ghost var original := worldspawn.properties;
    var done := command.DoPerformDo();
    var undone := command.DoPerformUndo();
    WriteBackKeepsMissingKey(original, EntityDefinitionsKey, command.asString(command.newSpec),
                             command.asString(command.oldSpec));
  }
}
