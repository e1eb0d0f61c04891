// The OpenGL context the core drives, as an explicit state object. Only the
// state the core's calls touch is kept: the active texture unit and the
// texture bound on each unit, the sampler uniforms, the bound vertex array,
// the array buffer binding, the element buffer each vertex array captures,
// buffer sizes, vertex attribute pointers, the draw log, the image files
// read for textures and the image each texture holds, and one name counter
// per object kind. The files on disk that decode as images are a constant
// of the context.

module Gl {

  /** A vertex attribute pointer: components per vertex, stride and byte
      offset, and the array buffer bound when it was set. */
  datatype Attrib = Attrib(size: nat, stride: nat, offset: nat, buffer: nat)

  datatype Primitive = Triangles

  /** One `glDrawElements` call with unsigned-int indices. */
  datatype DrawCall = DrawCall(mode: Primitive, count: nat, vao: nat)

  class GlContext {
    /** The active unit is `GL_TEXTURE0 + activeUnit`. */
    var activeUnit: nat
    /** Texture bound to `GL_TEXTURE_2D` on each unit. */
    var unitTextures: map<nat, nat>
    /** Integer uniforms of the shader in use, by name. */
    var uniforms: map<string, int>
    var boundVao: nat
    var arrayBuffer: nat
    /** The `GL_ELEMENT_ARRAY_BUFFER` binding each vertex array records. */
    var elementBuffers: map<nat, nat>
    /** Bytes of data stored in each buffer. */
    var bufferSizes: map<nat, nat>
    /** Attribute pointer per (vertex array, attribute index). */
    var attribs: map<(nat, nat), Attrib>
    var enabledAttribs: set<(nat, nat)>
    var draws: seq<DrawCall>
    /** Paths of the image files read to fill textures. */
    var imageReads: seq<string>
    /** The image file whose pixels each texture holds. */
    var textureImages: map<nat, string>
    /** The paths at which an image file exists and decodes. */
    const readable: set<string>
    var nextTexture: nat
    var nextBuffer: nat
    var nextVao: nat

    /** A fresh context; object name 0 is reserved, so names start at 1. */
    constructor (readable: set<string>)
      ensures activeUnit == 0 && unitTextures == map[] && uniforms == map[]
      ensures boundVao == 0 && arrayBuffer == 0 && elementBuffers == map[]
      ensures bufferSizes == map[] && attribs == map[] && enabledAttribs == {}
      ensures draws == [] && imageReads == [] && textureImages == map[]
      ensures nextTexture == 1 && nextBuffer == 1 && nextVao == 1
      ensures this.readable == readable
    {
      activeUnit, unitTextures, uniforms := 0, map[], map[];
      boundVao, arrayBuffer, elementBuffers := 0, 0, map[];
      bufferSizes, attribs, enabledAttribs := map[], map[], {};
      draws, imageReads, textureImages := [], [], map[];
      nextTexture, nextBuffer, nextVao := 1, 1, 1;
      this.readable := readable;
    }

    /** `glGenTextures(1, &id)`. */
    method GenTexture() returns (id: nat)
      modifies this`nextTexture
      ensures id == old(nextTexture) && nextTexture == id + 1
    {
      id := nextTexture;
      nextTexture := nextTexture + 1;
    }

    /** `glGenBuffers(1, &id)`. */
    method GenBuffer() returns (id: nat)
      modifies this`nextBuffer
      ensures id == old(nextBuffer) && nextBuffer == id + 1
    {
      id := nextBuffer;
      nextBuffer := nextBuffer + 1;
    }

    /** `glGenVertexArrays(1, &id)`. */
    method GenVertexArray() returns (id: nat)
      modifies this`nextVao
      ensures id == old(nextVao) && nextVao == id + 1
    {
      id := nextVao;
      nextVao := nextVao + 1;
    }

    /** `stbi_load(path, ...)`: reads an image file from disk; `ok` is false
        where the library returns a null pointer. */
    method ReadImage(path: string) returns (ok: bool)
      modifies this`imageReads
      ensures ok <==> path in readable
      ensures imageReads == old(imageReads) + [path]
    {
      imageReads := imageReads + [path];
      ok := path in readable;
    }

    /** `glTexImage2D(GL_TEXTURE_2D, ...)` with the pixels of image `source`:
        fills the texture bound on the active unit, if any. */
    method TexImage(source: string)
      modifies this`textureImages
      ensures activeUnit in unitTextures ==>
                textureImages == old(textureImages)[unitTextures[activeUnit] := source]
      ensures activeUnit !in unitTextures ==> textureImages == old(textureImages)
    {
      if activeUnit in unitTextures {
        textureImages := textureImages[unitTextures[activeUnit] := source];
      }
    }

    /** `glActiveTexture(GL_TEXTURE0 + unit)`. */
    method ActiveTexture(unit: nat)
      modifies this`activeUnit
      ensures activeUnit == unit
    {
      activeUnit := unit;
    }

    /** `glBindTexture(GL_TEXTURE_2D, id)` on the active unit. */
    method BindTexture(id: nat)
      modifies this`unitTextures
      ensures unitTextures == old(unitTextures)[activeUnit := id]
    {
      unitTextures := unitTextures[activeUnit := id];
    }

    /** `shader.setInt(name, value)`. */
    method SetInt(name: string, value: int)
      modifies this`uniforms
      ensures uniforms == old(uniforms)[name := value]
    {
      uniforms := uniforms[name := value];
    }

    /** `glBindVertexArray(vao)`. */
    method BindVertexArray(vao: nat)
      modifies this`boundVao
      ensures boundVao == vao
    {
      boundVao := vao;
    }

    /** `glBindBuffer(GL_ARRAY_BUFFER, buffer)`. */
    method BindArrayBuffer(buffer: nat)
      modifies this`arrayBuffer
      ensures arrayBuffer == buffer
    {
      arrayBuffer := buffer;
    }

    /** `glBindBuffer(GL_ELEMENT_ARRAY_BUFFER, buffer)`: recorded by the
        bound vertex array. */
    method BindElementBuffer(buffer: nat)
      modifies this`elementBuffers
      ensures elementBuffers == old(elementBuffers)[boundVao := buffer]
    {
      elementBuffers := elementBuffers[boundVao := buffer];
    }

    /** `glBufferData(GL_ARRAY_BUFFER, bytes, ..., GL_STATIC_DRAW)`. */
    method ArrayBufferData(bytes: nat)
      modifies this`bufferSizes
      ensures bufferSizes == old(bufferSizes)[arrayBuffer := bytes]
    {
      bufferSizes := bufferSizes[arrayBuffer := bytes];
    }

    /** `glBufferData(GL_ELEMENT_ARRAY_BUFFER, bytes, ..., GL_STATIC_DRAW)`;
        it stores into the element buffer of the bound vertex array, and
        does nothing when there is none. */
    method ElementBufferData(bytes: nat)
      modifies this`bufferSizes
      ensures boundVao in elementBuffers ==>
                bufferSizes == old(bufferSizes)[elementBuffers[boundVao] := bytes]
      ensures boundVao !in elementBuffers ==> bufferSizes == old(bufferSizes)
    {
      if boundVao in elementBuffers {
        bufferSizes := bufferSizes[elementBuffers[boundVao] := bytes];
      }
    }

    /** `glEnableVertexAttribArray(index)` on the bound vertex array. */
    method EnableAttrib(index: nat)
      modifies this`enabledAttribs
      ensures enabledAttribs == old(enabledAttribs) + {(boundVao, index)}
    {
      enabledAttribs := enabledAttribs + {(boundVao, index)};
    }

    /** `glVertexAttribPointer(index, size, GL_FLOAT, GL_FALSE, stride, offset)`. */
    method AttribPointer(index: nat, size: nat, stride: nat, offset: nat)
      modifies this`attribs
      ensures attribs == old(attribs)[(boundVao, index) := Attrib(size, stride, offset, arrayBuffer)]
    {
      attribs := attribs[(boundVao, index) := Attrib(size, stride, offset, arrayBuffer)];
    }

    /** `glDrawElements(GL_TRIANGLES, count, GL_UNSIGNED_INT, 0)`. */
    method DrawElements(count: nat)
      modifies this`draws
      ensures draws == old(draws) + [DrawCall(Triangles, count, boundVao)]
    {
      draws := draws + [DrawCall(Triangles, count, boundVao)];
    }
  }
}
