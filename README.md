# TrenchBroom texture assets and the entity definition file command, in Dafny

This project models two stateful pieces of the TrenchBroom level editor and proves what they promise.

**`Assets::Texture`** (texture.dfy, module `Assets`) is a texture asset as loaded from a texture collection. A texture starts unprepared, holding its decoded mip buffers. `prepare` uploads them into a GL texture object, releases them and remembers the object's id. Between draws, `activate` binds the texture and installs its culling mode and blend function, and `deactivate` undoes them. `setMode` changes the filters of an uploaded texture. A usage count tells the texture manager whether any face still uses the texture.

The model is a `Texture` class with the source's fields. `State()` gives every field at once, as a `TextureState` value. Each method is proved against the new state it produces and against the GL calls it issues.

The GL is a log of call tokens, kept by `OpenGL.GLContext` in gl.dfy. For each GL-issuing method, a function on `TextureState` names the exact calls it issues. `OpenGL.Apply` and `OpenGL.Run` give the tokens a meaning on an abstract GL server state holding:
- the bound texture;
- face culling;
- the colour-buffer blend state and the attribute stack;
- the pixel-unpack parameters;
- per-object texture parameters and images.

That meaning lets the lemmas state the following as equalities of GL states:
- "activating and then deactivating leaves the GL as it was";
- "`setMode` only changes the texture's filters";
- "`prepare` leaves the texture object with these parameters and these images".

**`Controller::SetEntityDefinitionFileCommand`** (controller.dfy, module `Controller`) is the undoable command that points the map at another entity definition file. The file is stored as the `_tb_def` property of the worldspawn entity. `_tb_def` is TrenchBroom's `PropertyKeys::EntityDefinitions`; the header that defines it is not part of this model.
- Doing the command remembers the document's current definition file and writes the string form of the new one.
- Undoing it writes the remembered one back.
- Both tell the document's observers that the worldspawn will change, then that it did change, then that the entity definitions changed.

The model has three classes:
- `Entity` holds a property map.
- `MapDocument` holds the worldspawn and a notification log. Each notification records the properties the worldspawn had when it was sent.
- The command holds `oldSpec`.

The definition file specification is the type parameter `Spec`.

Helpers whose definitions are not part of this model are parameters of the model:
- `sizeAtMipLevel` is a function value of type `MipSizeFn`;
- `bytesPerPixelForFormat` is a function value of type `BytesPerPixelFn`, applied to the texture's format;
- `EntityDefinitionFileSpec::asString` is a function value the command is built with;
- `MapDocument::entityDefinitionFile()` is a function of the worldspawn properties that the document is built with.

The source's `assert`s are preconditions of the model:
- the sizes checked in the constructors;
- `prepare`'s fresh id and unprepared texture;
- `decUsageCount`'s non-zero count.

## Model

| member | source | states |
|---|---|---|
| Assets.SelectTextureType | common/src/Assets/Texture.cpp:125-131 | the selected type is `Masked` exactly when the texture has a mask |
| Assets.Texture.FromBuffer | common/src/Assets/Texture.cpp:31-47 | needs a positive size and a buffer of at least width × height × `bytesPerPixelForFormat(format)` bytes; the new texture has usage count 0, is not overridden, culls by default, blends by default, is unprepared (id 0) and holds that one buffer |
| Assets.Texture.FromBuffers | common/src/Assets/Texture.cpp:49-72 | needs a positive size, and each level's buffer must hold at least that level's mip size times `bytesPerPixelForFormat(format)` bytes (`BuffersFit`); the new texture has the same fresh state as above and holds the given buffers in level order |
| Assets.Texture.WithoutBuffers | common/src/Assets/Texture.cpp:74-85 | the fresh state with no buffers at all |
| Assets.Texture.MoveFrom | common/src/Assets/Texture.cpp:89-104 | every field of the new texture equals that field of `other` |
| Assets.Texture.MoveAssign | common/src/Assets/Texture.cpp:106-123 | when `other` is another texture, afterwards every field equals what that field of `other` was; in every case, including a move onto itself, the size, format, usage count, overridden flag, type, culling, blend function and texture id are those of `other` |
| Assets.Texture.TakeDescription | common/src/Assets/Texture.cpp:107-117 | the name, paths, size, format and surface parameters are taken over; no other field is written |
| Assets.Texture.TakeRenderState | common/src/Assets/Texture.cpp:113-121 | the usage count, overridden flag, type, culling, blend function, texture id and buffers are taken over; no other field is written |
| Assets.Texture.Masked | common/src/Assets/Texture.cpp:165-167 | true exactly when the texture's type is `Masked` |
| Assets.Texture.SetOpaque | common/src/Assets/Texture.cpp:169-171 | afterwards the texture is not masked; only the type changed |
| Assets.Texture.SetCulling | common/src/Assets/Texture.cpp:185-187 | only the culling mode changed, to the given one |
| Assets.Texture.SetBlendFunc | common/src/Assets/Texture.cpp:189-193 | the blend function becomes `UseFactors` with exactly the given factors; nothing else changed |
| Assets.Texture.DisableBlend | common/src/Assets/Texture.cpp:195-197 | the blend mode becomes `DisableBlend` and the stored factors keep their values; nothing else changed |
| Assets.Texture.IncUsageCount | common/src/Assets/Texture.cpp:203-205 | the usage count rises by exactly one; nothing else changed |
| Assets.Texture.DecUsageCount | common/src/Assets/Texture.cpp:207-211 | only a count above zero may be lowered, so the count never underflows; it falls by exactly one and nothing else changed |
| Assets.Texture.IsPrepared | common/src/Assets/Texture.cpp:221-223 | true exactly when the texture id is non-zero |
| Assets.Texture.Prepare | common/src/Assets/Texture.cpp:225-271 | needs a non-zero id and an unprepared texture; with no buffers nothing changes, no call is issued and the texture stays unprepared; otherwise the buffers are released, the id is taken, the texture is prepared, and the calls issued are exactly those of `PrepareCalls` |
| Assets.Texture.SetUnpackParameters | common/src/Assets/Texture.cpp:230-235 | issues the six pixel-store calls, in order |
| Assets.Texture.SetTextureParameters | common/src/Assets/Texture.cpp:237-241 | binds the new object, then sets its min and mag filters and both wrap modes to repeat |
| Assets.Texture.SetMipmapParameters | common/src/Assets/Texture.cpp:243-253 | a masked texture turns mipmap generation off and forces nearest filters; an opaque texture with one buffer has mipmaps generated; otherwise the maximum level is the number of buffers minus one |
| Assets.Texture.UploadMipmaps | common/src/Assets/Texture.cpp:255-266 | uploads one image per level for levels 0 up to but not including `UploadCount`, each of its level's mip size and in the texture's format |
| Assets.UploadCallsAt | common/src/Assets/Texture.cpp:256-266 | the uploads are exactly `count` calls; call j uploads level j at that level's mip size; the levels are 0, 1, ..., count - 1 in that order |
| Assets.PrepareUploadsLevels | common/src/Assets/Texture.cpp:229-266 | without buffers `prepare` issues nothing; otherwise the levels it uploads are exactly 0 up to but not including `UploadCount`, ascending; `UploadCount` is 1 for a masked texture and the number of buffers otherwise, so it lies between 1 and the number of buffers |
| Assets.UploadsReadWithinBuffers | common/src/Assets/Texture.cpp:62-71 | when the constructor's size checks hold, every level `prepare` uploads has a buffer, and that buffer holds at least the bytes of the level's image |
| Assets.RunUnpack | common/src/Assets/Texture.cpp:230-235 | after the unpack calls, swap bytes, LSB first, row length, skip pixels and skip rows are 0 and the alignment is 1; nothing else in the GL state changed |
| Assets.RunSetup | common/src/Assets/Texture.cpp:237-241 | after the setup calls, the new object is bound and has the requested filters and repeating wrap modes; nothing else changed |
| Assets.RunMipmap | common/src/Assets/Texture.cpp:243-253 | the effect of the mipmap calls on the bound object's parameters, case by case |
| Assets.RunUploads | common/src/Assets/Texture.cpp:258-266 | the uploads store one image per level in the bound object and change nothing else |
| Assets.WithUploadsAt | common/src/Assets/Texture.cpp:258-266 | after uploading `count` levels, levels 0 up to `count` - 1 of the object each have an image of their mip size |
| Assets.RunPrepare | common/src/Assets/Texture.cpp:229-266 | running `prepare`'s calls on any GL state goes through unpacking, setup, mipmap parameters and uploads, in that order |
| Assets.PrepareBindsAndFilters | common/src/Assets/Texture.cpp:230-247 | after `prepare` the new object is bound; its filters are nearest for a masked texture and the requested ones otherwise; both wrap modes repeat; rows unpack with alignment 1 and natural row length; culling, blending and the attribute stack are untouched |
| Assets.PrepareMipmapParameters | common/src/Assets/Texture.cpp:243-253 | after `prepare`, mipmap generation is off for a masked texture; it is on for an opaque texture with one buffer; otherwise the maximum level is the number of buffers minus one |
| Assets.PrepareStoresImages | common/src/Assets/Texture.cpp:255-266 | after `prepare`, the new object holds an image of the right mip size for every uploaded level |
| Assets.Texture.Activate | common/src/Assets/Texture.cpp:288-318 | issues exactly `ActivateCalls`: nothing when unprepared; otherwise bind, then the culling change, then the blending change |
| Assets.Texture.InstallCulling | common/src/Assets/Texture.cpp:292-305 | `CullNone` disables culling, `CullFront` and `CullBoth` set the cull face, and `CullDefault` and `CullBack` issue nothing |
| Assets.Texture.InstallBlending | common/src/Assets/Texture.cpp:308-316 | unless the blend mode is the default, pushes the colour-buffer attributes, then sets the factors or disables blending |
| Assets.Texture.Deactivate | common/src/Assets/Texture.cpp:320-343 | issues exactly `DeactivateCalls`: nothing when unprepared; otherwise the blending restore, then the culling restore, then unbinding |
| Assets.Texture.RestoreBlending | common/src/Assets/Texture.cpp:322-324 | pops the attributes exactly when the blend mode is not the default |
| Assets.Texture.RestoreCulling | common/src/Assets/Texture.cpp:326-339 | `CullNone` re-enables culling, `CullFront` and `CullBoth` restore the back cull face, and the others issue nothing |
| Assets.UnpreparedIsInert | common/src/Assets/Texture.cpp:273-343 | an unprepared texture issues no call at all on activate, deactivate or set mode |
| Assets.BlendAttribPairing | common/src/Assets/Texture.cpp:308-324 | activation pushes the colour-buffer attributes as often as deactivation pops them: once when prepared with a non-default blend mode, never otherwise |
| Assets.CullNonePairing | common/src/Assets/Texture.cpp:292-329 | activation disables culling as often as deactivation re-enables it: once for a prepared `CullNone` texture, never otherwise |
| Assets.CullFacePairing | common/src/Assets/Texture.cpp:292-339 | `CullFront` sets the front face once and `CullBoth` sets both faces once; deactivation restores the back face once for either; `CullDefault` and `CullBack` issue no culling call |
| Assets.RunCullOn | common/src/Assets/Texture.cpp:292-305 | the GL culling state after the culling change of `activate` |
| Assets.RunBlendOn | common/src/Assets/Texture.cpp:308-316 | the GL blending state and attribute stack after the blending change of `activate` |
| Assets.ActivateEstablishes | common/src/Assets/Texture.cpp:288-318 | activating a prepared texture leaves it bound, with its culling and blend function installed and the previous blend state saved, as the reference state `Activated` describes |
| Assets.DeactivateRestores | common/src/Assets/Texture.cpp:320-343 | from the activated state, deactivating returns the GL exactly to the renderer's state before, when that state had no texture bound and back faces culled |
| Assets.ActivateThenDeactivateRestores | common/src/Assets/Texture.cpp:288-343 | from the renderer's state, `activate` followed by `deactivate` leaves every part of the GL state as it was |
| Assets.Texture.SetMode | common/src/Assets/Texture.cpp:273-286 | issues exactly `SetModeCalls`: nothing when unprepared; otherwise activation, the two filter calls (nearest for a masked texture), then deactivation |
| Assets.Texture.InstallFilters | common/src/Assets/Texture.cpp:276-283 | sets the min and mag filters, to nearest for a masked texture and to the requested ones otherwise |
| Assets.SetModeEffect | common/src/Assets/Texture.cpp:273-286 | from the renderer's state, `setMode` changes only the min and mag filters of the texture's own object; they become nearest for a masked texture and the requested filters otherwise; unprepared, it issues nothing and nothing changes |
| Controller.Entity.AddOrUpdateProperty | common/src/Controller/SetEntityDefinitionFileCommand.cpp:44 | the property map afterwards is the old one with just that key set to the value |
| Controller.MapDocument.ObjectWillChangeNotifier | common/src/Controller/SetEntityDefinitionFileCommand.cpp:42 | appends one will-change notification carrying the entity's properties at that moment |
| Controller.MapDocument.ObjectDidChangeNotifier | common/src/Controller/SetEntityDefinitionFileCommand.cpp:45 | appends one did-change notification carrying the entity's properties at that moment |
| Controller.MapDocument.EntityDefinitionsDidChangeNotifier | common/src/Controller/SetEntityDefinitionFileCommand.cpp:46 | appends one entity-definitions-changed notification |
| Controller.SetEntityDefinitionFileCommand.constructor | common/src/Controller/SetEntityDefinitionFileCommand.cpp:30-37 | the command belongs to the given document and holds the given spec; its name is "Set Entity Definition File"; it is undoable and updates the modification count |
| Controller.SetEntityDefinitionFileCommand.DoPerformDo | common/src/Controller/SetEntityDefinitionFileCommand.cpp:39-48 | returns true; `oldSpec` is the document's definition file from before the write; the worldspawn properties are the old ones with only the definitions key set to the new spec's string; the notifications are will-change with the old properties, did-change with the new ones, then definitions-changed, in that order |
| Controller.SetEntityDefinitionFileCommand.DoPerformUndo | common/src/Controller/SetEntityDefinitionFileCommand.cpp:50-58 | returns true; the worldspawn properties are the old ones with only the definitions key set to `oldSpec`'s string; the notifications are the same three, in the same order |
| Controller.SetEntityDefinitionFileCommand.DoCollateWith | common/src/Controller/SetEntityDefinitionFileCommand.cpp:60-62 | false for every command |
| Controller.WriteBackRestores | common/src/Controller/SetEntityDefinitionFileCommand.cpp:44-54 | writing a present key and then writing its previous value back gives the original map |
| Controller.WriteBackKeepsMissingKey | common/src/Controller/SetEntityDefinitionFileCommand.cpp:44-54 | when the key was missing before the do, the undo cannot restore the map: the key stays present |
| Controller.DoThenUndoKeepsAddedKey | common/src/Controller/SetEntityDefinitionFileCommand.cpp:39-58 | from a worldspawn without the definitions key, do followed by undo leaves the key present, holding the remembered spec's string, so the properties differ from the original |
| Controller.DoThenUndo | common/src/Controller/SetEntityDefinitionFileCommand.cpp:39-58 | if the stored definition file reads back as the string it came from, do followed by undo restores the worldspawn properties exactly; the log holds the do's three notifications and then the undo's three |

## Left out

- The GL itself. Every GL call is a token in a log; its effect is given by the abstract state in gl.dfy. GL errors, except popping an empty attribute stack (which changes nothing), texture formats, and `glAssert`'s error checking are not modelled.
- The texture's average colour, because it is floating point that no modelled operation reads. The pixel data is also left out: each mip buffer is its byte length only, and `glTexImage2D`'s data pointer is not modelled.
- `sizeAtMipLevel`, `bytesPerPixelForFormat`, `EntityDefinitionFileSpec::asString` and `MapDocument::entityDefinitionFile`, because their definitions are not part of this model. They are parameters and are otherwise uninterpreted.
- The plain accessors and setters of Texture.cpp that only read or write one field (`name`, `absolutePath`/`setAbsolutePath`, `relativePath`/`setRelativePath`, `width`, `height`, `averageColor`, `surfaceParms`/`setSurfaceParms`, `culling`, `usageCount`, `overridden`/`setOverridden`, `buffersIfUnprepared`, `format`, `type`). They are the fields of `State()`.
- The destructor, because it does nothing.
- Assets.Texture.IncUsageCount: the count is an unbounded `nat`. The source's `size_t` counter would wrap after 2^64 increments, and its atomic access is not modelled, because concurrency is outside this model.
- Assets.Texture.DecUsageCount: without the `assert`, the source's counter would wrap below zero. The model makes the assertion a precondition instead.
- Assets.Texture.MoveFrom: the state the move leaves `other` in is not described. Only what the new texture receives is.
- Assets.Texture.MoveAssign: the state the move leaves `other` in is not described. The source does not check for a move onto itself. In that case the name, the paths, the surface parameters and the buffers are moved onto themselves, which leaves them in a valid but unspecified state; a common standard library empties the buffers then, so a later `prepare` would issue nothing. The model therefore promises only the plain-value fields for a self-move.
- `lock()` on the command's weak document pointer, because the document's lifetime is not modelled. The command holds the document directly.
- `Command::freeType()` and the command type constant, because they belong to the command framework and not to this command.
- The undo of a do that added the definitions key does not remove the key again. `DoThenUndoKeepsAddedKey` states this. `DoThenUndo` therefore assumes the key was present and read back as itself.
- Integer widths. The model's integers are unbounded. The source's `size_t` products in the buffer-size assertions (Texture.cpp:45, :69) can wrap, letting a buffer that is too small pass; the model's checks never wrap. The `GLint` and `GLsizei` casts of the level count and the mip sizes (Texture.cpp:252, :262-264) are not modelled either.
- The size function `prepare` is given is not tied to the one the constructor checked the buffers against. The source uses one global `sizeAtMipLevel` for both. `UploadsReadWithinBuffers` states the connection when both are the same function.
- Assets.Texture.FromBuffer: the single buffer is checked against width × height, as the source does, and not against `sizeAtMipLevel` at level 0.
- common/test/src/Model/PatchNodeTest.cpp and common/src/View/VertexToolController.h are not part of this model. They are floating-point patch geometry and a UI controller with no implementation shown.
