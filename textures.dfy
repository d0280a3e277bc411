/** The wall and floor texture tables the texture dropdowns choose from
    (script.js:40-52, 381-389). A loaded texture is identified by the file it
    was loaded from. */
module Textures {

  /** wallTextures (script.js:40-45). */
  const WallTextures: seq<string> := [
    "./wall textures/wall-texture1.jpg",
    "./wall textures/wall-texture2.jpg",
    "./wall textures/wall-texture3.jpg",
    "./wall textures/wall-texture4.jpg"
  ]

  /** floorTextures (script.js:47-52). */
  const FloorTextures: seq<string> := [
    "./wood floor textures/wood-floor1.jpg",
    "./wood floor textures/wood-floor2.jpg",
    "./wood floor textures/wood-floor3.jpg",
    "./wood floor textures/wood-floor4.jpg"
  ]

  /** The dropdowns offer "Texture 1" to "Texture 4", the values 0 to 3. */
  const Choices: nat := 4

  /** Each dropdown value names a texture of its table, and different values name
      different textures: the texture a material shows tells which entry was chosen,
      and no wall texture is ever a floor texture. */
  lemma ChoicesDistinct(i: nat, j: nat)
    requires i < Choices && j < Choices
    ensures i < |WallTextures| && i < |FloorTextures|
    ensures i != j ==> WallTextures[i] != WallTextures[j] && FloorTextures[i] != FloorTextures[j]
    ensures WallTextures[i] != FloorTextures[j]
  {
  }
}
