/** A health bar (health_bar.py): its width eases toward `health * width_per_hp` one unit
    per update, and its colour records the direction it last moved in. Its position, height
    and drawing rectangle serve only to draw it and are not part of this model. */
module HealthBars {
  import opened Easing

  datatype Colour = White | Red | Green

  /** The colour an update leaves: red while shrinking, green while growing, white at rest. */
  function Tint(width: int, target: int): Colour
  {
    if target < width then Red else if target > width then Green else White
  }

  /** The colour says which way the width just moved. */
  lemma TintRecordsDirection(width: int, target: int)
    ensures Tint(width, target) == Red <==> StepToward(width, target) < width
    ensures Tint(width, target) == Green <==> StepToward(width, target) > width
    ensures Tint(width, target) == White <==> StepToward(width, target) == width
  {
  }

  class HealthBar {
    const initialHealth: int
    const widthPerHp: int
    var barWidth: int
    var colour: Colour

    constructor (initialHealth: int, widthPerHp: int)
      ensures this.initialHealth == initialHealth && this.widthPerHp == widthPerHp
      ensures barWidth == initialHealth * widthPerHp && colour == White
    {
      this.initialHealth := initialHealth;
      this.widthPerHp := widthPerHp;
      barWidth := initialHealth * widthPerHp;
      colour := White;
    }

    /** `update(current_health)`: one step of the width toward `current_health * width_per_hp`. */
    method Update(currentHealth: int)
      modifies this
      ensures barWidth == StepToward(old(barWidth), currentHealth * widthPerHp)
      ensures colour == Tint(old(barWidth), currentHealth * widthPerHp)
    {
      var targetWidth := currentHealth * widthPerHp;
      colour := White;
      if targetWidth < barWidth {
        barWidth := barWidth - 1;
        colour := Red;
      } else if targetWidth > barWidth {
        barWidth := barWidth + 1;
        colour := Green;
      }
    }
  }
}
