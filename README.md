# Gaussian-splat sorting and rendering orchestration, modelled in Dafny

This project models the core of a Unity package that draws 3D Gaussian splats. The model covers
the parts that decide what gets sorted, when it is sorted and with which GPU buffers:

- **GsplatSortPass** records a GPU radix sort into a command buffer. It computes one depth key
  per splat (`CalcDistance`), clears a global histogram, then runs four 8-bit passes
  (`Upsweep`, `Scan`, `Downsweep`). Each pass swaps the key/payload buffers with their
  alternates. `InitPayload` fills a payload buffer with `0 .. n-1`. `SupportResources` owns the
  alternate and histogram buffers.
- **GsplatSorter** keeps a registry of drawables and subscribes to `Camera.onPreCull` when there
  is no scriptable pipeline. Per camera it gathers the active and valid drawables, attaches its
  command buffer to each camera once, and records one `InitPayload` (first frame of a resource
  only) plus one sort per drawable. **GsplatRenderSystem** is the older registry built the same
  way around an external sorter.
- **GsplatRendererImpl** owns the per-splat GPU buffers, the sorter resource and the material
  property block, and draws with `Materials[SHBands]`. **GsplatRenderer** is the component
  that builds, rebuilds and disposes it as the component is enabled, disabled and updated.
- **GsplatSettings** holds the shader, compute shader, the four materials (one per
  spherical-harmonics band count) and the instanced quad mesh. It rebuilds each of them when its
  input changes.
- **GsplatImporter** reads a binary little-endian PLY file. It reads the header line by line,
  then one fixed-size record of floats per splat into five arrays, then builds a quad mesh with
  the splat number in each vertex's z.

Modules and files:

| File | Contents |
|---|---|
| `base.dfy` | `Wrappers` (Option, Result) and `Ints` (C# `uint` and `int` conversions, truncating division, arithmetic lemmas) |
| `graphics.dfy` | `Graphics`: engine stand-ins (buffers, command buffers, compute shaders, cameras, materials, meshes, 4x4 matrices) |
| `command_log.dfy` | `CommandLog`: projections of a command list (its dispatches, its radix shifts) |
| `radix_sort.dfy` | `RadixSort`: reference semantics of the four-pass LSD radix sort on key/payload pairs |
| `sort_pass.dfy` | `SortPass`: `GsplatSortPass`, `SupportResources`, `Args`, `DivRoundUp` |
| `sort_semantics.dfy` | `SortSemantics`: runs a recorded command list on an abstract GPU state and shows that one `Dispatch` is the reference sort |
| `sorter_resource.dfy` | `SorterResource`: the sorter's per-drawable `Resource` |
| `renderer_impl.dfy` | `RendererImpl`: `GsplatRendererImpl` |
| `gsplat.dfy` | `Gsplat`: `GsplatSorter`, `GsplatRenderer`, `GsplatAsset` |
| `render_system.dfy` | `RenderSystem`: `GsplatRenderSystem` and the external sorter it calls |
| `settings.dfy` | `Settings`: `GsplatSettings` |
| `quad_mesh.dfy` | `QuadMesh`: the quad meshes built by the settings and by the importer |
| `importer.dfy` | `Importer`: header reading, record decoding, the whole import |

Engine singletons (`GsplatSorter.Instance`, `GsplatSettings.Instance`) become explicit
parameters. So do what the engine reports: whether a scriptable render pipeline is active
(`srp`), whether the device runs Vulkan, and the settings' validity as seen by the sorter.

Where the source and the package's own description disagree, the model follows the source:

- The band count is `(byte)(Math.Sqrt((n - 14) / 3) - 1)` with a truncating division and a
  truncating cast, not a rounded square root.
- The importer copies opacity, scale and rotation unchanged. It applies no sigmoid, no
  exponential and no normalisation.
- A drawable is valid exactly when an asset is assigned. Its splat count and buffers are not
  consulted.
- In the source, a header without `end_header` never ends the import (see Findings). The
  model's `OnImportAsset` uses the corrected header loop instead: that loop stops at the end of
  the file. The empty file, for example, imports 0 splats.
- The histogram-clear kernel is named `InitDeviceRadixSort`.
- `InitPayload` and `Dispatch` require a valid pass, since the source asserts it, rather than
  doing nothing when the pass is invalid.

## Model

| member | source | states |
|---|---|---|
| SortPass.DivRoundUp | Runtime/GsplatSortPass.cs:146 | When `x + y - 1` does not wrap in `uint`, the result is the ceiling of `x / y`; when it wraps, the result is 0 |
| SortPass.CeilingDivision | Runtime/GsplatSortPass.cs:146 | The wrapped `(x + y - 1) / y` lies in `[x, x + y)` once multiplied by `y`, and is 0 when the sum wraps |
| SortPass.PassHistogramSize | Runtime/GsplatSortPass.cs:57-61 | The pass-histogram size is `DivRoundUp(count, 3840) * 256`, lies in `[0, 286331136]` so its `(int)` cast never wraps, and gives 256 entries to every 3840-key partition |
| SortPass.Load | Runtime/GsplatSortPass.cs:57-74 | Four fresh, distinct, live buffers of stride 4: two alternates of `(int)count`, the pass histogram and a 256*4 global histogram |
| SortPass.Dispose | Runtime/GsplatSortPass.cs:76-87 | Every buffer held is released and every field of the result is null, so disposing again releases nothing |
| SortPass.RolesParity | Runtime/GsplatSortPass.cs:217-219 | After an even number of swaps, pass `k` reads the caller's buffers and writes the alternates; after an odd number, the reverse |
| SortPass.RolesChain | Runtime/GsplatSortPass.cs:199-220 | Each pass reads what the previous pass wrote, and after four passes the caller's buffers are the source again |
| SortPass.ConfigureKeywords | Runtime/GsplatSortPass.cs:134-143 | SHOULD_ASCEND and SORT_PAIRS are enabled; VULKAN is enabled on Vulkan devices and disabled otherwise |
| SortPass.GsplatSortPass.constructor | Runtime/GsplatSortPass.cs:102-144 | The kernel indices are the shader's kernels of those names; the pass is valid exactly when all six exist and are supported; the keywords are set |
| SortPass.GsplatSortPass.KernelsDistinct | Runtime/GsplatSortPass.cs:107-120 | In a valid pass the six kernels are six different entry points |
| SortPass.GsplatSortPass.InitPayload | Runtime/GsplatSortPass.cs:149-155 | Records the key count, the payload binding and one `InitPayload` dispatch over `DivRoundUp(count, 1024)` groups |
| SortPass.GsplatSortPass.Dispatch | Runtime/GsplatSortPass.cs:157-221 | Appends exactly the prologue and the four pass blocks to the command buffer, each pass using the roles after its swaps |
| SortPass.GsplatSortPass.PassBlockSchedule | Runtime/GsplatSortPass.cs:199-215 | Pass `k` dispatches Upsweep, Scan (256 groups) and Downsweep, and sets the radix shift to `8 * k` |
| SortPass.GsplatSortPass.PassesBeforeSchedule | Runtime/GsplatSortPass.cs:199-220 | The first `k` passes dispatch the pass schedule `k` times and set the shifts `0, 8, ..., 8(k-1)` |
| SortPass.GsplatSortPass.PrologueSchedule | Runtime/GsplatSortPass.cs:170-196 | The prologue dispatches CalcDistance over `DivRoundUp(count, 1024)` groups and the one-group histogram clear, and sets no shift |
| SortPass.GsplatSortPass.DispatchSchedule | Runtime/GsplatSortPass.cs:157-221 | One sort records exactly 14 dispatches for every count, zero included, and sets the radix shifts 0, 8, 16, 24 in order |
| RadixSort.FullKey | Runtime/GsplatSortPass.cs:31-38 | Four 8-bit digits cover a 32-bit key: `256^4 = 2^32`, and the low four digits of a key are the key |
| RadixSort.PassCorrect | Runtime/GsplatSortPass.cs:199-220 | One stable counting-sort pass on digit `p` keeps the entries, as a multiset, and sorts an input sorted on `p` digits on `p + 1` digits |
| RadixSort.SortCorrect | Runtime/GsplatSortPass.cs:198-220 | The four passes leave the keys ascending and the entries a permutation of the input, of the same length |
| RadixSort.PassStable | Runtime/GsplatSortPass.cs:199-220 | One pass is stable: the entries with equal lowest `p + 1` digits keep their relative order |
| RadixSort.PassKeepsStable | Runtime/GsplatSortPass.cs:199-220 | A pass on digit `q` of a sequence ordered like the input on its lowest `q` digits orders it like the input on its lowest `q + 1` digits |
| RadixSort.SortStable | Runtime/GsplatSortPass.cs:198-220 | The four passes keep entries with equal keys in their input order |
| RadixSort.AscendingUnique | Runtime/GsplatSortPass.cs:198-220 | Two ascending sequences with the same entries of each key, in the same order, are equal |
| RadixSort.SortIdempotent | Runtime/GsplatSortPass.cs:198-220 | Sorting an ascending sequence again leaves it unchanged |
| RadixSort.Unzip | Runtime/GsplatSortPass.cs:211-214 | Splitting pairs into a key buffer and a payload buffer loses nothing |
| RadixSort.ZipSplit | Runtime/GsplatSortPass.cs:211-214 | Zipping a key buffer with a payload buffer gives both buffers back |
| RadixSort.SortKeepsPairs | Runtime/GsplatSortPass.cs:211-214 | Sorting pairs never separates a key from its payload: every output pair is an input pair |
| RadixSort.SortIdentityPayload | Runtime/GsplatSortPass.cs:148-155 | Sorting keys paired with `0 .. n-1` gives ascending keys, and each index appears exactly once, beside its own key |
| RadixSort.IdentityPermutation | Runtime/GsplatSortPass.cs:148-155 | Any rearrangement of the identity-payload pairs carries every index exactly once, with its key |
| SortSemantics.CalcDistanceRun | Runtime/GsplatSortPass.cs:175-179 | CalcDistance overwrites the caller's keys with the depth of the splat each payload slot names, and nothing else |
| SortSemantics.PrologueRun | Runtime/GsplatSortPass.cs:170-196 | After the prologue, only the key buffer has changed, to the depths of the payload's splats, and the key count is set |
| SortSemantics.DownsweepRun | Runtime/GsplatSortPass.cs:210-215 | The Downsweep of pass `k` writes one reference pass of the source pair into the destination pair |
| SortSemantics.PassBlockRun | Runtime/GsplatSortPass.cs:199-220 | One pass block moves the GPU state from the reference state after `k` passes to the one after `k + 1` |
| SortSemantics.PassesRun | Runtime/GsplatSortPass.cs:199-220 | The first `k` pass blocks carry the state from pass 0 to pass `k` |
| SortSemantics.GroupsCover | Runtime/GsplatSortPass.cs:168 | When the rounding sum does not wrap, `DivRoundUp(count, size)` groups of `size` threads cover all keys |
| SortSemantics.DispatchSorts | Runtime/GsplatSortPass.cs:157-221 | Running one `Dispatch` leaves in the caller's key and payload buffers the reference radix sort of the (depth, payload) pairs |
| SortSemantics.DispatchReorders | Runtime/GsplatSortPass.cs:157-221 | A later frame's `Dispatch` permutes the payload, keeps each slot beside its own splat's depth, and leaves the keys ascending |
| SortSemantics.InitPayloadRun | Runtime/GsplatSortPass.cs:148-155 | `InitPayload` fills the payload buffer with `0, 1, ..., count - 1` |
| SortSemantics.FirstSortOrders | Runtime/GsplatSorter.cs:143-158 | `InitPayload` followed by `Dispatch` leaves each splat index exactly once, in ascending depth, with its depth in the key buffer |
| SorterResource.Resource.constructor | Runtime/GsplatSorter.cs:40-47 | A fresh key buffer of `(int)count` four-byte elements, support buffers sized as `Load(count)` sizes them, the caller's position and order buffers, not yet initialised |
| SorterResource.Resource.Dispose | Runtime/GsplatSorter.cs:49-55 | The key buffer and the support buffers are released and the key buffer is forgotten; the support buffers stay referenced, because they are nulled on a copy |
| Gsplat.GsplatSorter.InjectedOnce | Runtime/GsplatSorter.cs:116-127 | While the registry invariant holds, no camera has the command buffer attached more than once |
| Gsplat.GsplatSorter.InitSorter | Runtime/GsplatSorter.cs:69-72 | No compute shader gives no pass and an invalid sorter; a shader gives a fresh pass over it, and the sorter is valid exactly when the pass is |
| Gsplat.GsplatSorter.RegisterGsplat | Runtime/GsplatSorter.cs:74-83 | Set insertion; the handler is subscribed once, when the registry was empty and there is no scriptable pipeline; registering a member changes nothing |
| Gsplat.GsplatSorter.UnregisterGsplat | Runtime/GsplatSorter.cs:85-103 | Removing a non-member changes nothing, and removing another member only shrinks the set. Removing the last member detaches the buffer from each injected camera that still exists, clears the cameras and the active list, releases and drops the buffer, and unsubscribes. The attachment and subscription invariants are kept |
| Gsplat.GsplatSorter.GatherGsplatsForCamera | Runtime/GsplatSorter.cs:105-114 | A preview camera gives false and leaves the list alone; otherwise the active list holds exactly the active, enabled, valid drawables, without repeats, and the result says whether there is any |
| Gsplat.GsplatSorter.InitialClearCmdBuffer | Runtime/GsplatSorter.cs:116-127 | A command buffer exists (reused or fresh) and is empty; it is attached to a live camera not yet injected when there is no scriptable pipeline; the invariant is kept |
| Gsplat.GsplatSorter.SortJob | Runtime/GsplatSorter.cs:142-158 | For one drawable: `InitPayload` on its order buffer only when its resource was not initialised, which it is afterwards, then one sort with the drawable's count, model-view matrix and buffers |
| Gsplat.GsplatSorter.DispatchSort | Runtime/GsplatSorter.cs:138-160 | The commands are, in list order, per drawable, the `InitPayload` of a not-yet-initialised resource and its sort; every resource met ends up initialised, and no initialised resource goes back |
| Gsplat.GsplatSorter.OnPreCullCamera | Runtime/GsplatSorter.cs:129-136 | Nothing is recorded unless the sorter and the settings are valid and the camera has eligible drawables. Otherwise the buffer holds exactly the sort plan of the jobs, the job `i` being the `i`-th active drawable's job for this camera, and every job's resource ends initialised. In every case no initialised resource goes back |
| Gsplat.GsplatSorter.ClearAndSort | Runtime/GsplatSorter.cs:134-135 | After clearing and attaching, the command buffer holds exactly the plan of the active drawables' jobs, in list order; every job's resource ends initialised, no initialised resource goes back, and an attached buffer stays attached |
| Gsplat.DetachAll | Runtime/GsplatSorter.cs:94-95 | Every camera of the set that still exists has the command buffer removed; other cameras are untouched |
| Gsplat.GsplatRenderer.constructor | Runtime/GsplatRenderer.cs:12-17 | The default field values: SH degree 3, no gamma conversion, no impl, no previous asset |
| Gsplat.GsplatRenderer.SplatCount | Runtime/GsplatRenderer.cs:20 | The asset's splat count, or 0 without an asset |
| Gsplat.GsplatRenderer.OnEnable | Runtime/GsplatRenderer.cs:33-40 | Registers even without an asset; with an asset, a fresh, fully built impl for its count and bands |
| Gsplat.GsplatRenderer.OnDisable | Runtime/GsplatRenderer.cs:42-47 | Unregisters, releases every buffer the impl and its sorter resource held, nulls every buffer field and drops the impl, and forgets the last asset seen (the corrected behaviour, see Findings); the sorter's buffer stays attached and hooked |
| Gsplat.GsplatRenderer.OnDisableKeepingAsset | Runtime/GsplatRenderer.cs:42-47 | `OnDisable` as written: unregisters, releases every buffer the impl and its sorter resource held, nulls the buffer fields and drops the impl, but keeps the last asset seen; the sorter's buffer stays attached and hooked |
| Gsplat.GsplatRenderer.Update | Runtime/GsplatRenderer.cs:49-67 | A changed asset is remembered and gets an impl for its count and bands, created or recreated; with an asset the impl renders; with the invariant, it never calls a missing impl |
| Gsplat.ReassignAfterDisableAsWritten | Runtime/GsplatRenderer.cs:42-59 | Disable, clear the asset, enable, assign the same asset: with `OnDisable` as written, `Update` calls `Render` on a null impl |
| Gsplat.ReassignAfterDisable | Runtime/GsplatRenderer.cs:42-59 | The same steps with the corrected `OnDisable` end in a draw |
| RenderSystem.CallsFor | Runtime/GsplatRenderSystem.cs:104-109 | One sorter call per drawable of the list |
| RenderSystem.CallsForAt | Runtime/GsplatRenderSystem.cs:104-109 | Call `k` is the call for drawable `k`, with the drawable's model-view matrix for the camera |
| RenderSystem.GsplatRenderSystem.constructor | Runtime/GsplatRenderSystem.cs:13-17 | Empty registry, no cameras, no command buffer, no sorter, no subscription |
| RenderSystem.GsplatRenderSystem.InitSorter | Runtime/GsplatRenderSystem.cs:21-24 | No compute shader gives no sorter and an invalid system; a shader gives a fresh sorter over it |
| RenderSystem.GsplatRenderSystem.RegisterGsplat | Runtime/GsplatRenderSystem.cs:26-35 | Set insertion; subscription when the registry was empty and there is no scriptable pipeline |
| RenderSystem.GsplatRenderSystem.UnregisterGsplat | Runtime/GsplatRenderSystem.cs:37-63 | A non-member changes nothing; the last member's removal detaches from the live cameras marked done, clears everything, releases the buffer and unsubscribes; invariants kept |
| RenderSystem.GsplatRenderSystem.GatherSplatsForCamera | Runtime/GsplatRenderSystem.cs:65-82 | A preview camera gives false; otherwise the active list is exactly the eligible drawables, each once, and the result says whether there is any |
| RenderSystem.GsplatRenderSystem.InitialClearCmdBuffer | Runtime/GsplatRenderSystem.cs:84-95 | A command buffer exists and is empty; a live camera not yet marked done gets it attached when there is no scriptable pipeline |
| RenderSystem.GsplatRenderSystem.OnPreCullCamera | Runtime/GsplatRenderSystem.cs:97-110 | An invalid system or settings, or a preview camera, leaves everything unchanged. With nothing eligible, the active list is emptied and the buffer, the cameras and the sorter are unchanged. Otherwise the buffer is cleared and the sorter receives one call per active drawable, in order |
| RenderSystem.GsplatRenderSystem.GatherAndDispatch | Runtime/GsplatRenderSystem.cs:99-109 | Past the validity checks: a preview camera changes nothing; with nothing eligible only the active list changes; otherwise one sorter call per active drawable, in order |
| RenderSystem.GsplatRenderSystem.ClearAndDispatch | Runtime/GsplatRenderSystem.cs:102-109 | Clearing and attaching the buffer, then one sorter call per active drawable |
| RenderSystem.GsplatRenderSystem.DispatchAll | Runtime/GsplatRenderSystem.cs:104-109 | The sorter's calls grow by exactly the calls for the active drawables, in list order |
| RendererImpl.MaterialFor | Runtime/GsplatRendererImpl.cs:129 | `Materials[SHBands]` draws exactly when the array exists and the index is inside it, with that material; otherwise one of the two exceptions |
| RendererImpl.ReleaseAll | Runtime/GsplatRendererImpl.cs:93-98 | Every non-null buffer is released |
| RendererImpl.GsplatRendererImpl.BuiltIsValid | Runtime/GsplatRendererImpl.cs:22-27 | A built impl is valid |
| RendererImpl.GsplatRendererImpl.constructor | Runtime/GsplatRendererImpl.cs:41-47 | The count and bands are recorded; every buffer is fresh, live and sized; the property block binds them; no SH buffer without bands |
| RendererImpl.GsplatRendererImpl.CreateResources | Runtime/GsplatRendererImpl.cs:60-77 | Five fresh buffers of `(int)count` elements with strides 12, 12, 16, 16, 4; an SH buffer of `int`-wrapped `coefficients * count` entries only with bands; a sorter resource over the impl's own position and order buffers |
| RendererImpl.GsplatRendererImpl.NewSplatBuffers | Runtime/GsplatRendererImpl.cs:62-74 | The five per-splat buffers, fresh, live, `(int)count` long, with their element sizes |
| RendererImpl.GsplatRendererImpl.CreateShBuffer | Runtime/GsplatRendererImpl.cs:70-73 | The SH buffer has `WrapInt32(CoefficientCount(bands) * (int)count)` entries of 12 bytes |
| RendererImpl.GsplatRendererImpl.CreatePropertyBlock | Runtime/GsplatRendererImpl.cs:79-89 | The block binds the order, position, scale, rotation and colour buffers, and the SH buffer only when there are bands; other entries are kept |
| RendererImpl.GsplatRendererImpl.Dispose | Runtime/GsplatRendererImpl.cs:91-107 | Every buffer and the sorter resource is released, the six buffer fields are null, the impl is invalid, and the sorter resource stays referenced |
| RendererImpl.GsplatRendererImpl.RecreateResources | Runtime/GsplatRendererImpl.cs:49-58 | The same count and bands change nothing; otherwise the old buffers and the old sorter resource's buffers are released and a fresh, valid set is built for the new ones |
| RendererImpl.GsplatRendererImpl.Build | Runtime/GsplatRendererImpl.cs:54-57 | Records the new count and bands and builds fresh, bound buffers |
| RendererImpl.GsplatRendererImpl.Render | Runtime/GsplatRendererImpl.cs:118-138 | Skips, with the block untouched, unless the impl, the settings and the sorter are valid; otherwise sets the five per-draw properties and draws with `Materials[SHBands]` |
| Settings.ShBandsKeyword | Runtime/GsplatSettings.cs:109 | The keyword is `SH_BANDS_` followed by the band digit |
| Settings.KeywordsDistinct | Runtime/GsplatSettings.cs:105-110 | Different band counts get different keywords |
| Settings.IntendedValid | Runtime/GsplatSettings.cs:60 | Valid as intended is the check as written plus an existing material array |
| Settings.NullMaterialsPassAsWritten | Runtime/GsplatSettings.cs:60 | As written, settings with no material array pass the check, and `Materials[SHBands]` then faults on null |
| Settings.IntendedValidNeverNull | Runtime/GsplatSettings.cs:60 | Settings valid as intended never make the renderer index a null array, and an in-range band draws with its material |
| Settings.GsplatSettings.constructor | Runtime/GsplatSettings.cs:53-58 | The serialized shaders, the default instance size 128, no materials and no mesh |
| Settings.GsplatSettings.Env | Runtime/GsplatSettings.cs:60 | What the renderer reads: the sorter's validity, the material array, the instance size, and the settings' corrected validity, which is the check as written plus an existing material array |
| Settings.GsplatSettings.CreateMaterials | Runtime/GsplatSettings.cs:93-111 | The old materials are destroyed. With a shader: four fresh materials over it, material `b` carrying exactly the keyword for `b` bands. Without one: no array |
| Settings.GsplatSettings.CreateMeshInstance | Runtime/GsplatSettings.cs:66-91 | A fresh mesh of `4 * size` vertices and `6 * size` indices, each given by the instance quad layout |
| Settings.GsplatSettings.InstanceIndicesInRange | Runtime/GsplatSettings.cs:80-81 | Every index of the instance mesh names one of its vertices |
| Settings.GsplatSettings.OnValidate | Runtime/GsplatSettings.cs:113-133 | Rebuilds only what changed: the materials for a new shader, the sort pass for a new compute shader, and the mesh for a new size, destroying the old mesh; everything else is untouched, and it ends in sync |
| Settings.GsplatSettings.SyncShader | Runtime/GsplatSettings.cs:115-119 | New materials exactly when the shader changed; otherwise the old materials are untouched |
| Settings.GsplatSettings.SyncComputeShader | Runtime/GsplatSettings.cs:121-125 | A new sort pass exactly when the compute shader changed |
| Settings.GsplatSettings.SyncMesh | Runtime/GsplatSettings.cs:127-132 | The old mesh destroyed and a new one built exactly when the size changed; otherwise the mesh is untouched |
| Settings.GsplatSettings.OnEnable | Runtime/GsplatSettings.cs:135-144 | Rebuilds the materials, the sort pass and the mesh unconditionally, without touching the previous mesh, and ends in sync |
| Settings.EnabledSettingsDrawBand | Runtime/GsplatSettings.cs:105-110 | After enabling with a shader and a positive size, the settings are valid and an asset with `b` bands draws with the material carrying `SH_BANDS_b` |
| QuadMesh.FillQuads | Runtime/GsplatSettings.cs:68-82 | Fresh arrays of `4n` vertices and `6n` indices, each entry the layout's vertex or index at that position |
| QuadMesh.WriteQuad | Runtime/GsplatSettings.cs:70-82 | Quad `i` writes its four vertices and six indices and nothing else |
| QuadMesh.WriteCorners | Runtime/GsplatSettings.cs:72-78 | The four corners of quad `i`, with the quad number in z, and nothing else |
| QuadMesh.WriteTriangles | Runtime/GsplatSettings.cs:80-81 | The six indices of quad `i`, offset by `4 * i`, and nothing else |
| QuadMesh.IndicesInRange | Editor/GSplatImporter.cs:118-119 | Every index names a vertex of its own quad, so all are below `4n` |
| QuadMesh.InstanceSquare | Runtime/GsplatSettings.cs:74-81 | The settings' two triangles are counter-clockwise, each half of the square, and cover its four corners |
| QuadMesh.ImportSquare | Editor/GSplatImporter.cs:112-119 | The importer's two triangles are counter-clockwise, each half of the square, and cover its four corners |
| QuadMesh.LayoutsAgree | Editor/GSplatImporter.cs:112-119 | The settings' and the importer's quads differ in corner order but draw the same square |
| Importer.LineEnd | Editor/GSplatImporter.cs:23-28 | The first line feed at or after the position, or the end of the data, with no line feed before it |
| Importer.TrimCarriageReturn | Editor/GSplatImporter.cs:31-34 | Drops exactly one trailing carriage return, if there is one |
| Importer.LineRoundTrip | Editor/GSplatImporter.cs:20-37 | The bytes consumed are the line, the dropped carriage return if any, and the line feed unless the data ended |
| Importer.ReadLine | Editor/GSplatImporter.cs:20-37 | Reads up to a line feed or the end of the file and returns the line without one trailing CR; at the end it returns the empty line |
| Importer.ReadLineOrEnd | Editor/GSplatImporter.cs:45 | The corrected reader: it reports the end of the file exactly when no byte is left, and otherwise reads as `ReadLine` |
| Importer.Split | Editor/GSplatImporter.cs:47 | At least one piece, and no piece holds the separator |
| Importer.JoinSplit | Editor/GSplatImporter.cs:47 | Splitting loses nothing: joining the pieces gives the line back |
| Importer.SplitJoin | Editor/GSplatImporter.cs:47 | Pieces free of the separator come back from a split of their join |
| Importer.ParseDecimal | Editor/GSplatImporter.cs:49 | Every 32-bit count written in decimal parses back to itself, with white space around it, trailing NUL bytes and a leading `+`; after a `-`, only zero parses |
| Importer.ParseUInt | Editor/GSplatImporter.cs:49 | A token that parses holds a digit and nothing but white space, signs, digits and NUL bytes, and one with a `-` parses only to zero |
| Importer.ParseDigits | Editor/GSplatImporter.cs:49 | After the sign, a body that parses starts with a digit and holds only digits, white space and NUL bytes; after a `-` its value is zero |
| Importer.ClassifyBytes | Editor/GSplatImporter.cs:47-51 | A line is a vertex count exactly when it starts with `element vertex ` and no space follows, the count being the parse of the rest; it declares a property exactly when it starts with `property ` and one more space follows |
| Importer.HeaderScan | Editor/GSplatImporter.cs:45-52 | The header lines before `end_header` or the end of the data, none of them `end_header`, and where the data after them starts |
| Importer.HeaderLoopAsWritten | Editor/GSplatImporter.cs:45-52 | When the loop as written stops, it yields what the corrected loop yields from the same position, and its only error is an unparsable vertex count |
| Importer.AsWrittenTurn | Editor/GSplatImporter.cs:45-52 | One turn of the loop as written on a line that is not `end_header` moves on with the updated counts |
| Importer.EmptyLineChangesNothing | Editor/GSplatImporter.cs:45-52 | The empty line, which `ReadLine` returns at the end of the file, is not `end_header` and changes no count |
| Importer.HeaderAsWrittenNeverStops | Editor/GSplatImporter.cs:39-53 | On a file without `end_header` whose counts all parse, the loop as written does not stop within any number of turns |
| Importer.EmptyFileNeverStops | Editor/GSplatImporter.cs:39-53 | The empty file is such a file |
| Importer.Consume | Editor/GSplatImporter.cs:47-51 | A turn fails exactly on an unparsable vertex count; otherwise it extends the counts of the lines before |
| Importer.BadLineFails | Editor/GSplatImporter.cs:49 | One unparsable vertex count makes the whole header an error |
| Importer.AllParse | Editor/GSplatImporter.cs:47-51 | Lines that all parse give the last vertex count and the number of property lines |
| Importer.HeaderFromDescribes | Editor/GSplatImporter.cs:45-52 | Turn by turn, the loop computes the header that its lines describe |
| Importer.Describes | Editor/GSplatImporter.cs:39-53 | From the first header line, the loop's result is the header of all header lines |
| Importer.ReadPlyHeader | Editor/GSplatImporter.cs:39-53 | The corrected loop stops, yields the header its lines describe, and leaves the stream after the header |
| Importer.Floats | Editor/GSplatImporter.cs:87 | `4n` bytes are seen as `n` floats |
| Importer.FloatsOfBytes | Editor/GSplatImporter.cs:87 | Reinterpreting the bytes of a run of floats gives the run back |
| Importer.DecodeRecord | Editor/GSplatImporter.cs:88-97 | A record gives a splat with as many SH coefficients as the coefficient count |
| Importer.EncodeRecord | Editor/GSplatImporter.cs:88-97 | A splat written in the standard layout takes `17 + 3c` floats |
| Importer.DecodeEncode | Editor/GSplatImporter.cs:88-97 | The importer reads back every splat written in the standard layout, whatever its normal, with the coefficient count taken from the property count |
| Importer.Sqrt | Editor/GSplatImporter.cs:72 | The floor of the square root |
| Importer.SqrtUnique | Editor/GSplatImporter.cs:72 | The floor of the square root is the only number with that property |
| Importer.ShBandsOf | Editor/GSplatImporter.cs:72 | A band count exists only when `(n - 14) / 3`, truncated, is at least 1 |
| Importer.StandardBands | Editor/GSplatImporter.cs:69-72 | A file in the standard layout for `b` bands yields exactly `(b+1)^2 - 1` coefficients and `b` bands |
| Importer.RecordAt | Editor/GSplatImporter.cs:83-87 | Record `k` has exactly the property count of floats |
| Importer.DecodeRecords | Editor/GSplatImporter.cs:81-97 | One splat per vertex |
| Importer.DecodeRecordsAt | Editor/GSplatImporter.cs:81-97 | Splat `k` is record `k` decoded, and record `k` lies inside the file |
| Importer.ShConcatAt | Editor/GSplatImporter.cs:91-93 | Coefficient `j` of splat `k` sits at `k * coeffs + j` of the SH array |
| Importer.ShConcatLength | Editor/GSplatImporter.cs:75 | The SH array has `vertexCount * coeffs` entries |
| Importer.ArraysOf | Editor/GSplatImporter.cs:73-77 | The five arrays hold the splats: one entry each, and the SH coefficients back to back |
| Importer.CoeffsFit | Editor/GSplatImporter.cs:69-75 | With a vertex and an SH array of non-negative length, every field the loop reads lies inside the record |
| Importer.StoreSplat | Editor/GSplatImporter.cs:88-97 | Writing splat `i` extends the filled prefix of the arrays by that splat |
| Importer.StoreCoefficients | Editor/GSplatImporter.cs:91-93 | The coefficients of the record follow those already stored |
| Importer.ReadRecord | Editor/GSplatImporter.cs:83-87 | A record is read exactly when the file holds all its bytes, and it is record `i` |
| Importer.ReadSplat | Editor/GSplatImporter.cs:82-97 | One turn succeeds exactly when the record fits, and then extends the filled arrays by that splat |
| Importer.FillSplats | Editor/GSplatImporter.cs:81-101 | Fills every splat when the file holds every record; otherwise reports the first vertex whose record runs past the end |
| Importer.ReadSplats | Editor/GSplatImporter.cs:73-101 | Succeeds exactly when the file holds every record, with the arrays of the decoded records; otherwise fails with unexpected end at the short vertex |
| Importer.BuildAsset | Editor/GSplatImporter.cs:106-128 | The asset with `4n` vertices and `6n` indices of the importer's quad layout |
| Importer.ReadRecords | Editor/GSplatImporter.cs:69-128 | After the header, the importer produces exactly `ImportRecords`: a negative SH length or a short file fails, otherwise all records decoded and the mesh built |
| Importer.OnImportAsset | Editor/GSplatImporter.cs:55-132 | The whole import is exactly `Import`: files of 2 GiB or more and bad headers are refused, otherwise the records after the header. `Import` reads the header with the corrected loop of the second finding, so a file without `end_header` ends, where the source does not |

## Left out

- GPU kernel bodies are not part of this model. `Downsweep` is given the meaning of one stable
  counting-sort pass on the current digit. `CalcDistance` writes the depth of the splat each
  payload slot names, through an abstract depth function. `InitPayload` writes `0 .. n-1`.
  Upsweep, Scan and the histogram clear change no modelled buffer. A dispatch with too few
  groups to cover the keys is modelled as having no effect.
- Floating point: matrices are `real` 4x4 values without rounding, and splat attributes are
  opaque four-byte values that are only copied.
- The bit-cast `*(float*)&i` is modelled as the quad number carried in the vertex's z.
- `SHBandsToCoefficientCount` is not part of this model; it is taken to be `(b + 1)^2 - 1`.
- The engine (`Camera`, `CommandBuffer`, `GraphicsBuffer`, `Material`, `Mesh`,
  `MaterialPropertyBlock`) is reduced to what the core observes. Unity's `== null` on destroyed
  objects is a `destroyed` flag. `Camera.onPreCull` is a subscription counter.
- `RenderSystem.GpuSorting`: the external sorter behind the older registry is reduced to a
  validity flag and the log of its `Dispatch` calls; `gs.SorterArgs` is named by its drawable.
- `IGsplat` is modelled by its one implementation, `GsplatRenderer`.
- `GsplatSettings.Instance` (loading or creating the settings asset), the scriptable-pipeline
  passes, the settings provider, bounds (`CalcWorldBounds`, the importer's bounds) and the
  draw call's instance count `CeilToInt(count / size)` are not modelled.
- `GsplatRenderer.SetBufferData` (uploading the asset's arrays) is not modelled; the impl's buffers
  are not given contents.
- Importer: the asset file name, `AddObjectToAsset` and the exception messages are left out.
  `FileStream.Read` is taken to return every requested byte unless the file ends first.
- Gsplat.GsplatSorter.OnPreCullCamera: requires every eligible drawable to have an impl with a
  sorter resource; the source throws a null reference exception otherwise (the third finding
  shows one way), which is not modelled.
- Gsplat.GsplatSorter.DispatchSort: requires every active drawable to have an impl with a sorter
  resource, for the same reason. It also requires a valid sorter. The HDRP pass
  (Runtime/SRP/GsplatHDRPPass.cs:14-16) calls it without checking that. With no pass, the source
  throws a null reference exception. With an invalid pass, the source's assertion fails. Neither
  case is modelled.
- Settings.GsplatSettings.Env: reports the corrected validity of the first finding. Settings with
  no material array pass the source's check but are reported invalid. So the runtime model never
  shows the null dereference in `Render`; only `Settings.NullMaterialsPassAsWritten` shows it.
- Importer.ParseUInt: models `uint.Parse` with the invariant culture's `+` and `-` signs. Other
  cultures' sign strings are not modelled.
- Importer.OnImportAsset: never runs forever, while the source's import does not end on a file
  without `end_header` (second finding). On such a file the model's header ends with the file.
  A header that declares no vertices then gives an empty asset. One that declares vertices fails
  with a negative SH length or an unexpected end.
- SortPass.GsplatSortPass.constructor: requires a non-null compute shader, since the source
  dereferences it after its null check.
- Settings.GsplatSettings.CreateMeshInstance: requires an instance size of at most 357913941. For
  larger sizes the source's array sizes overflow, which is not modelled.
- Settings.GsplatSettings.OnValidate: same bound, when the size changed.
- Settings.GsplatSettings.SyncMesh: same bound, when the size changed.
- Settings.GsplatSettings.OnEnable: same bound.
- Importer.ShBandsOf: a band count outside the byte range, which C# converts to an unspecified
  byte, is `None`.

## Findings

| source | as written | input that shows it | evidently intended | confidence | as-written member | corrected member |
|---|---|---|---|---|---|---|
| Runtime/GsplatSettings.cs:60 | `Materials?.Length != 0` is true when `Materials` is null, so the settings pass as valid without materials | settings with no shader (so `Materials` is null), a live mesh and size 128; a drawable with an asset makes `Render` index `Materials[SHBands]` on null | valid only with a material array | not executed | Settings.NullMaterialsPassAsWritten | Settings.IntendedValidNeverNull |
| Editor/GSplatImporter.cs:45 | `ReadLine` never returns null, so the header loop ends only at an `end_header` line | an empty file, or any header without `end_header`: at the end of the file every turn reads the empty line and the loop never ends | stop at the end of the file | not executed | Importer.HeaderAsWrittenNeverStops | Importer.ReadPlyHeader |
| Runtime/GsplatRenderer.cs:42-47 | `OnDisable` drops the impl but keeps `m_prevAsset` | enable with asset A, update, disable, set the asset to null, enable, set it to A again, update: no asset change is seen, no impl is built, and `Render` is called on null | `OnDisable` also forgets the last asset | not executed | Gsplat.ReassignAfterDisableAsWritten | Gsplat.ReassignAfterDisable |
