/**
 * The text templates of fp_core/klipper.py and fp_core/systemd.py, and the characters of
 * each file the manager writes. The filesystem model records a written file by its
 * template and the values filled in (`Host.Text`); `Render` spells it out.
 */
module Templates {
  import opened Host
  import opened Decimal

  /** The text `write_base_printer_cfg` puts in a new `printer.cfg`. */
  const BasePrinterCfgText: string :=
    "# FluxPath instance base config\n"
    + "[include mmu/mmu_main.cfg]\n"

  /** The text `write_mmu_steppers_cfg` puts in a new `mmu/mmu_steppers.cfg`. */
  const MmuSteppersCfgText: string :=
    "# ============================================\n"
    + "# MMU steppers ON SKR MINI E3 (MCU: mmu)\n"
    + "# ============================================\n\n"
    + "# Tool 0 -> extruder1\n"
    + "# Tool 1 -> extruder2\n\n"
    + "[extruder_stepper extruder1]\n"
    + "step_pin: mmu:PB13\n"
    + "dir_pin: mmu:PB12\n"
    + "enable_pin: !mmu:PB14\n"
    + "rotation_distance: 7.71\n"
    + "microsteps: 16\n"
    + "full_steps_per_rotation: 200\n"
    + "extruder: extruder\n\n"
    + "[tmc2209 extruder_stepper extruder1]\n"
    + "uart_pin: mmu:PB15\n"
    + "run_current: 0.8\n"
    + "hold_current: 0.5\n"
    + "stealthchop_threshold: 0\n\n"
    + "[extruder_stepper extruder2]\n"
    + "step_pin: mmu:PB10\n"
    + "dir_pin: mmu:PB2\n"
    + "enable_pin: !mmu:PB11\n"
    + "rotation_distance: 7.71\n"
    + "microsteps: 16\n"
    + "full_steps_per_rotation: 200\n"
    + "extruder: extruder\n\n"
    + "[tmc2209 extruder_stepper extruder2]\n"
    + "uart_pin: mmu:PC6\n"
    + "run_current: 0.8\n"
    + "hold_current: 0.5\n"
    + "stealthchop_threshold: 0\n"

  /** `KLIPPER_SERVICE_TEMPLATE` with id, klipper_dir, config_dir and logs_dir filled in. */
  function KlipperUnitText(id: int, klipperDir: Path, configDir: Path, logsDir: Path): string {
    Lines([
      "[Unit]",
      "Description=Klipper instance " + IntToString(id),
      "After=network.target",
      "",
      "[Service]",
      "Type=simple",
      "User=syko",
      "ExecStart=/usr/bin/python3 " + PathString(klipperDir) + "/klippy/klippy.py "
        + PathString(configDir) + "/printer.cfg -l " + PathString(logsDir) + "/klippy.log",
      "Restart=always",
      "WorkingDirectory=" + PathString(klipperDir),
      "",
      "[Install]",
      "WantedBy=multi-user.target"])
  }

  /** `MOONRAKER_SERVICE_TEMPLATE` with id, config_path and config_dir filled in. */
  function MoonrakerUnitText(id: int, configPath: Path, configDir: Path): string {
    Lines([
      "[Unit]",
      "Description=Moonraker instance " + IntToString(id),
      "After=network.target",
      "",
      "[Service]",
      "Type=simple",
      "User=syko",
      "ExecStart=/usr/bin/python3 -m moonraker -c " + PathString(configPath),
      "Restart=always",
      "WorkingDirectory=" + PathString(configDir),
      "",
      "[Install]",
      "WantedBy=multi-user.target"])
  }

  /** The default moonraker.conf, bound to the instance's moonraker port. */
  function MoonrakerConfText(port: int): string {
    Lines([
      "[server]",
      "host: 0.0.0.0",
      "port: " + IntToString(port),
      "",
      "[authorization]",
      "trusted_clients: 127.0.0.1"])
  }

  /** A text file made of `lines`, each ended by a newline. */
  function Lines(lines: seq<string>): string
    decreases |lines|
  {
    if lines == [] then "" else lines[0] + "\n" + Lines(lines[1..])
  }

  /** The characters of a file. */
  function Render(t: Text): string {
    match t
    case BasePrinterCfgFile => BasePrinterCfgText
    case MmuSteppersCfgFile => MmuSteppersCfgText
    case KlipperUnitFile(id, klipperDir, configDir, logsDir) => KlipperUnitText(id, klipperDir, configDir, logsDir)
    case MoonrakerUnitFile(id, configPath, configDir) => MoonrakerUnitText(id, configPath, configDir)
    case MoonrakerConfFile(port) => MoonrakerConfText(port)
    case OtherText(chars) => chars
  }
}
