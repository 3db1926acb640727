/**
  What every node generator shares: the generation mode, the collaborators
  whose definitions lie outside the three node files, the property chunks a
  property generator receives, and the shape of a shader declaration.

  A shader-chunk sink is modelled by the sequence of chunk texts a generator
  appends to it; a property sink by the sequence of property chunks.
 */
module Generation {

  import opened Graphing

  /** Preview (editor preview) or the final shader. */
  datatype GenerationMode = Preview | ForReals

  datatype PropertyType = Float | Texture2D

  datatype PreviewMode = Preview2D | Preview3D

  /** The texture usage; only `Bump` changes generated code. */
  datatype TextureType = White | Black | Gray | Bump

  /** An opaque reference to the node's default texture asset. */
  type TextureToken = string

  /**
    The collaborators the nodes call but whose definitions are elsewhere,
    kept uninterpreted:
    - `precision` and `variableName` are the node's `precision` and
      `GetVariableNameForNode()`, given the node's guid;
    - `propertyName` and `description` are a property node's `propertyName`
      and `description`, given the node's guid and its `exposed` flag, since
      their definitions may read that flag;
    - `isPreview` is `GenerationMode.IsPreview()`;
    - `renderFloat` is the rendering of a float into shader text;
    - `uvVertexToFragment` and `uvVertexShader` are the chunks the UV node's
      static vertex-to-fragment and vertex-shader generators append.
   */
  datatype Context = Context(
    precision: Guid -> string,
    propertyName: (Guid, bool) -> string,
    description: (Guid, bool) -> string,
    variableName: Guid -> string,
    isPreview: GenerationMode -> bool,
    renderFloat: real -> string,
    uvVertexToFragment: GenerationMode -> seq<string>,
    uvVertexShader: seq<string>)

  /**
    A material property chunk, as added to a property generator. `hidden`
    names the flag both nodes pass as a literal `false`; the chunk classes'
    own parameter names are not part of this model.
   */
  datatype PropertyChunk =
    | TextureProperty(name: string, description: string, defaultTexture: TextureToken,
                      textureType: TextureType, hidden: bool, exposed: bool)
    | FloatProperty(name: string, description: string, defaultValue: real, hidden: bool)

  /** The text `<ty> <name><init>;`. */
  function Declaration(ty: string, name: string, init: string): string
  {
    ty + " " + name + init + ";"
  }

  /** `init` is empty or an initialiser ` = <value>`. */
  predicate IsInitializer(init: string)
  {
    init == [] || (|init| >= 3 && init[..3] == " = ")
  }

  /** `chunk` declares `name`: `<ty> <name>;` or `<ty> <name> = <value>;`. */
  ghost predicate IsDeclarationOf(chunk: string, name: string)
  {
    exists ty, init :: IsInitializer(init) && chunk == Declaration(ty, name, init)
  }

  /** Some chunk of `chunks` declares `name`. */
  ghost predicate DeclaresIn(chunks: seq<string>, name: string)
  {
    exists i :: 0 <= i < |chunks| && IsDeclarationOf(chunks[i], name)
  }
}
